// The cart sidebar: the guard in front of `updateQuantity`, the per-line
// minus / plus / typed-quantity / remove controls, and the checkout button
// that hands the cart to the checkout page and closes the sidebar.
module CartSidebar {
  import opened JsText
  import opened Cart

  /** `handleQuantityChange`: negative requests are dropped; 0 reaches
      `updateQuantity`, which removes the product. */
  function HandleQuantityChange(s: CartState, id: string, newQuantity: int): CartState {
    if newQuantity >= 0 then UpdateQuantityOp(s, id, newQuantity) else s
  }

  /** The minus button of line `i`; disabled at quantity 1 or less. */
  function MinusPressed(s: CartState, i: nat): CartState
    requires i < |s.items|
  {
    var line := s.items[i];
    if line.quantity <= 1 then s else HandleQuantityChange(s, line.item.id, line.quantity - 1)
  }

  function PlusPressed(s: CartState, i: nat): CartState
    requires i < |s.items|
  {
    HandleQuantityChange(s, s.items[i].item.id, s.items[i].quantity + 1)
  }

  /** The quantity input of line `i`: `parseInt(value) || 1`. */
  function QuantityTyped(s: CartState, i: nat, value: string): CartState
    requires i < |s.items|
  {
    HandleQuantityChange(s, s.items[i].item.id, OrOne(ParseInt(value)))
  }

  /** The remove button of line `i`: removes by id. */
  function RemovePressed(s: CartState, i: nat): CartState
    requires i < |s.items|
  {
    RemoveFromCartOp(s, s.items[i].item.id)
  }

  /** Every line holds at least one unit. */
  predicate AllPositive(items: seq<Line>) {
    forall j :: 0 <= j < |items| ==> items[j].quantity >= 1
  }

  /** Setting a positive quantity on a cart with positive lines keeps them positive. */
  lemma SetKeepsPositive(s: CartState, id: string, q: int)
    requires AllPositive(s.items) && q >= 1
    ensures AllPositive(HandleQuantityChange(s, id, q).items)
  {
    UpdatePositiveSetsEveryVariant(s, id, q);
  }

  /** Removing lines keeps the rest positive. */
  lemma RemoveKeepsPositive(s: CartState, id: string)
    requires AllPositive(s.items)
    ensures AllPositive(RemoveFromCartOp(s, id).items)
  {
    var r := RemoveFromCartOp(s, id).items;
    RemoveDropsEveryVariant(s, id);
    forall j | 0 <= j < |r| ensures r[j].quantity >= 1 {
      assert multiset(r)[r[j]] > 0;
      assert r[j] in s.items;
    }
  }

  /** None of the sidebar controls takes a line below 1: minus is disabled at
      1, plus and a typed 0 or non-number give at least 1, a typed negative
      number is ignored, and remove only drops lines. */
  lemma ControlsKeepQuantitiesPositive(s: CartState, i: nat, value: string)
    requires i < |s.items| && AllPositive(s.items)
    ensures AllPositive(MinusPressed(s, i).items)
    ensures AllPositive(PlusPressed(s, i).items)
    ensures AllPositive(QuantityTyped(s, i, value).items)
    ensures AllPositive(RemovePressed(s, i).items)
  {
    MinusKeepsPositive(s, i);
    PlusKeepsPositive(s, i);
    TypedKeepsPositive(s, i, value);
    RemoveKeepsPositive(s, s.items[i].item.id);
  }

  lemma MinusKeepsPositive(s: CartState, i: nat)
    requires i < |s.items| && AllPositive(s.items)
    ensures AllPositive(MinusPressed(s, i).items)
  {
    if s.items[i].quantity > 1 {
      SetKeepsPositive(s, s.items[i].item.id, s.items[i].quantity - 1);
    }
  }

  lemma PlusKeepsPositive(s: CartState, i: nat)
    requires i < |s.items| && AllPositive(s.items)
    ensures AllPositive(PlusPressed(s, i).items)
  {
    SetKeepsPositive(s, s.items[i].item.id, s.items[i].quantity + 1);
  }

  /** Typing keeps every line positive: text that reads as no number or as 0
      sets the product to 1, a negative number is dropped by the guard, and a
      positive number is set as typed. */
  lemma TypedKeepsPositive(s: CartState, i: nat, value: string)
    requires i < |s.items| && AllPositive(s.items)
    ensures AllPositive(QuantityTyped(s, i, value).items)
    ensures ParseInt(value).None? || ParseInt(value) == Some(0) ==>
      QuantityTyped(s, i, value) == UpdateQuantityOp(s, s.items[i].item.id, 1)
    ensures ParseInt(value).Some? && ParseInt(value).value < 0 ==> QuantityTyped(s, i, value) == s
    ensures ParseInt(value).Some? && ParseInt(value).value > 0 ==>
      QuantityTyped(s, i, value) == UpdateQuantityOp(s, s.items[i].item.id, ParseInt(value).value)
  {
    var q := OrOne(ParseInt(value));
    if q >= 1 {
      SetKeepsPositive(s, s.items[i].item.id, q);
    }
  }

  /** A zero that reaches the guard (it cannot come from the controls) removes
      every line with the id, and a negative request changes nothing. */
  lemma GuardOnZeroAndNegative(s: CartState, id: string, q: int)
    ensures HandleQuantityChange(s, id, 0) == RemoveFromCartOp(s, id)
    ensures q < 0 ==> HandleQuantityChange(s, id, q) == s
    ensures q > 0 ==> HandleQuantityChange(s, id, q) == Reduce(s, UpdateQuantity(id, q))
  {
  }

  /** Plus on a line raises every line that shares its id to one more than
      that line's quantity, whatever their size or colour. */
  lemma PlusSetsEveryVariant(s: CartState, i: nat)
    requires i < |s.items| && s.items[i].quantity >= 0
    ensures var r := PlusPressed(s, i);
      && |r.items| == |s.items|
      && forall j :: 0 <= j < |s.items| ==>
           r.items[j] == if s.items[j].item.id == s.items[i].item.id then Line(s.items[j].item, s.items[i].quantity + 1) else s.items[j]
  {
    UpdatePositiveSetsEveryVariant(s, s.items[i].item.id, s.items[i].quantity + 1);
  }

  // ---------------------------------------------------------------------------
  // Checkout

  /** The navigation state handed to the checkout page. */
  datatype Handoff = Handoff(cartItems: seq<Line>, cartTotal: int)

  /** `handleCheckout`: hands over the items and their total, then toggles the sidebar. */
  function HandleCheckout(s: CartState): (Handoff, CartState) {
    (Handoff(s.items, GetCartTotal(s)), ToggleCartOp(s))
  }

  /** Checkout hands over the current items and their total, closes an open
      sidebar, and leaves the cart's contents and totals as they were. */
  lemma CheckoutKeepsCart(s: CartState)
    requires s.isCartOpen
    ensures var (h, r) := HandleCheckout(s);
      && h.cartItems == s.items && h.cartTotal == GetCartTotal(s)
      && !r.isCartOpen && r.items == s.items
      && GetCartTotal(r) == GetCartTotal(s) && GetCartItemsCount(r) == GetCartItemsCount(s)
  {
    ToggleFlipsVisibilityOnly(s);
  }
}
