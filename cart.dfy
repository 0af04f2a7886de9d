// The cart store: `cartReducer`, its initial state, the provider's wrappers
// (`updateQuantity` turns a non-positive quantity into a removal) and the two
// folds `getCartTotal` and `getCartItemsCount`. The reducer builds fresh
// states, so everything here is a function on values.
module Cart {
  import opened JsText

  /** The product fields the cart looks at. Prices are integer cents. A size or
      colour may be absent (`undefined`), which `===` treats as equal to itself. */
  datatype Item = Item(
    id: string,
    name: string,
    price: int,
    selectedSize: Option<string>,
    selectedColor: Option<string>)

  /** A cart line: the spread payload with its quantity. */
  datatype Line = Line(item: Item, quantity: int)

  /** The payload of `ADD_TO_CART`: a product whose `quantity` may be missing. */
  datatype Payload = Payload(item: Item, quantity: Option<int>)

  /** The key `ADD_TO_CART` merges on. */
  datatype Key = Key(id: string, size: Option<string>, color: Option<string>)

  datatype CartState = CartState(items: seq<Line>, isCartOpen: bool)

  datatype Action =
    | AddToCart(payload: Payload)
    | RemoveFromCart(productId: string)
    | UpdateQuantity(id: string, quantity: int)
    | ClearCart
    | ToggleCart
    | OtherAction(actionType: string)

  const InitialState: CartState := CartState([], false)

  function KeyOf(item: Item): Key {
    Key(item.id, item.selectedSize, item.selectedColor)
  }

  predicate HasKey(items: seq<Line>, k: Key) {
    exists i :: 0 <= i < |items| && KeyOf(items[i].item) == k
  }

  /** No two lines share an (id, size, colour) key. */
  predicate UniqueKeys(items: seq<Line>) {
    forall i, j :: 0 <= i < j < |items| ==> KeyOf(items[i].item) != KeyOf(items[j].item)
  }

  /** `payload.quantity || 1`. */
  function Increment(p: Payload): int {
    OrOne(p.quantity)
  }

  /** The `map` of the merging branch: every line with key `k` gains `inc`. */
  function Bump(items: seq<Line>, k: Key, inc: int): seq<Line> {
    if items == [] then []
    else
      var head := if KeyOf(items[0].item) == k then Line(items[0].item, items[0].quantity + inc) else items[0];
      [head] + Bump(items[1..], k, inc)
  }

  /** The `filter` of `REMOVE_FROM_CART`: lines whose id differs. */
  function WithoutId(items: seq<Line>, id: string): seq<Line> {
    if items == [] then []
    else if items[0].item.id == id then WithoutId(items[1..], id)
    else [items[0]] + WithoutId(items[1..], id)
  }

  /** The `map` of `UPDATE_QUANTITY`: every line with the id gets quantity `q`. */
  function SetQuantity(items: seq<Line>, id: string, q: int): seq<Line> {
    if items == [] then []
    else
      var head := if items[0].item.id == id then Line(items[0].item, q) else items[0];
      [head] + SetQuantity(items[1..], id, q)
  }

  /** `cartReducer`. */
  function Reduce(s: CartState, a: Action): CartState {
    match a
    case AddToCart(p) =>
      if HasKey(s.items, KeyOf(p.item)) then s.(items := Bump(s.items, KeyOf(p.item), Increment(p)))
      else s.(items := s.items + [Line(p.item, Increment(p))])
    case RemoveFromCart(id) => s.(items := WithoutId(s.items, id))
    case UpdateQuantity(id, q) => s.(items := SetQuantity(s.items, id, q))
    case ClearCart => s.(items := [])
    case ToggleCart => s.(isCartOpen := !s.isCartOpen)
    case OtherAction(_) => s
  }

  // The provider's wrappers around `dispatch`.

  function AddToCartOp(s: CartState, p: Payload): CartState { Reduce(s, AddToCart(p)) }
  function RemoveFromCartOp(s: CartState, id: string): CartState { Reduce(s, RemoveFromCart(id)) }
  function ClearCartOp(s: CartState): CartState { Reduce(s, ClearCart) }
  function ToggleCartOp(s: CartState): CartState { Reduce(s, ToggleCart) }

  /** `updateQuantity`: a quantity of 0 or less removes the product instead. */
  function UpdateQuantityOp(s: CartState, id: string, q: int): CartState {
    if q <= 0 then RemoveFromCartOp(s, id) else Reduce(s, UpdateQuantity(id, q))
  }

  /** `reduce((total, item) => total + item.price * item.quantity, 0)`, folded from the left. */
  function Total(items: seq<Line>): int {
    if items == [] then 0 else Total(items[..|items| - 1]) + LineTotal(items[|items| - 1])
  }

  function LineTotal(l: Line): int {
    l.item.price * l.quantity
  }

  /** `reduce((total, item) => total + item.quantity, 0)`. */
  function ItemsCount(items: seq<Line>): int {
    if items == [] then 0 else ItemsCount(items[..|items| - 1]) + items[|items| - 1].quantity
  }

  function GetCartTotal(s: CartState): int { Total(s.items) }
  function GetCartItemsCount(s: CartState): int { ItemsCount(s.items) }

  // ---------------------------------------------------------------------------
  // Pointwise descriptions of the three list transformations.

  lemma {:induction false} BumpPointwise(items: seq<Line>, k: Key, inc: int)
    ensures |Bump(items, k, inc)| == |items|
    ensures forall i :: 0 <= i < |items| ==>
      (Bump(items, k, inc)[i] == if KeyOf(items[i].item) == k then Line(items[i].item, items[i].quantity + inc) else items[i])
  {
    if items != [] {
      BumpPointwise(items[1..], k, inc);
    }
  }

  lemma {:induction false} SetQuantityPointwise(items: seq<Line>, id: string, q: int)
    ensures |SetQuantity(items, id, q)| == |items|
    ensures forall i :: 0 <= i < |items| ==>
      (SetQuantity(items, id, q)[i] == if items[i].item.id == id then Line(items[i].item, q) else items[i])
  {
    if items != [] {
      SetQuantityPointwise(items[1..], id, q);
    }
  }

  lemma {:induction false} WithoutIdAppend(a: seq<Line>, b: seq<Line>, id: string)
    ensures WithoutId(a + b, id) == WithoutId(a, id) + WithoutId(b, id)
  {
    if a != [] {
      assert (a + b)[1..] == a[1..] + b;
      WithoutIdAppend(a[1..], b, id);
    } else {
      assert a + b == b;
    }
  }

  lemma {:induction false} WithoutIdContents(items: seq<Line>, id: string)
    ensures forall l :: l in WithoutId(items, id) ==> l.item.id != id
    ensures forall l: Line :: l.item.id != id ==> multiset(WithoutId(items, id))[l] == multiset(items)[l]
    ensures forall l: Line :: l.item.id == id ==> multiset(WithoutId(items, id))[l] == 0
  {
    if items != [] {
      WithoutIdContents(items[1..], id);
      assert items == [items[0]] + items[1..];
    }
  }

  // ---------------------------------------------------------------------------
  // ADD_TO_CART

  /** Adding a product whose key is already in the cart raises every line with
      that key by `payload.quantity || 1`; the other lines and their order stay. */
  lemma AddMergesExistingLine(s: CartState, p: Payload)
    requires HasKey(s.items, KeyOf(p.item))
    ensures var r := AddToCartOp(s, p);
      && r.isCartOpen == s.isCartOpen
      && |r.items| == |s.items|
      && forall i :: 0 <= i < |s.items| ==>
           (r.items[i] == if KeyOf(s.items[i].item) == KeyOf(p.item)
                          then Line(s.items[i].item, s.items[i].quantity + OrOne(p.quantity))
                          else s.items[i])
  {
    BumpPointwise(s.items, KeyOf(p.item), Increment(p));
  }

  /** With unique keys exactly one line is raised. */
  lemma AddMergesExactlyOneLine(s: CartState, p: Payload, j: nat)
    requires UniqueKeys(s.items)
    requires j < |s.items| && KeyOf(s.items[j].item) == KeyOf(p.item)
    ensures var r := AddToCartOp(s, p);
      && |r.items| == |s.items|
      && r.items[j] == Line(s.items[j].item, s.items[j].quantity + OrOne(p.quantity))
      && forall i :: 0 <= i < |s.items| && i != j ==> r.items[i] == s.items[i]
  {
    BumpPointwise(s.items, KeyOf(p.item), Increment(p));
  }

  /** Adding a product with a new key appends one line at the end with
      quantity `payload.quantity || 1` (so 0 or a missing quantity gives 1). */
  lemma AddAppendsNewLine(s: CartState, p: Payload)
    requires !HasKey(s.items, KeyOf(p.item))
    ensures var r := AddToCartOp(s, p);
      && r.isCartOpen == s.isCartOpen
      && r.items[..|s.items|] == s.items
      && |r.items| == |s.items| + 1
      && r.items[|s.items|].item == p.item
      && r.items[|s.items|].quantity == (if p.quantity == None || p.quantity == Some(0) then 1 else p.quantity.value)
  {
  }

  /** Adding never creates two lines with the same key. */
  lemma AddKeepsKeysUnique(s: CartState, p: Payload)
    requires UniqueKeys(s.items)
    ensures UniqueKeys(AddToCartOp(s, p).items)
  {
    var k := KeyOf(p.item);
    if HasKey(s.items, k) {
      BumpPointwise(s.items, k, Increment(p));
      var r := Bump(s.items, k, Increment(p));
      assert forall i :: 0 <= i < |r| ==> KeyOf(r[i].item) == KeyOf(s.items[i].item);
    }
  }

  /** The number of lines with key `k`. */
  function CountKey(items: seq<Line>, k: Key): nat {
    if items == [] then 0
    else CountKey(items[..|items| - 1], k) + (if KeyOf(items[|items| - 1].item) == k then 1 else 0)
  }

  /** The sum of `payload.quantity || 1` over the payloads. */
  function SumIncrements(ps: seq<Payload>): int {
    if ps == [] then 0 else SumIncrements(ps[..|ps| - 1]) + Increment(ps[|ps| - 1])
  }

  /** Adding the payloads one after another. */
  function AddAll(s: CartState, ps: seq<Payload>): CartState {
    if ps == [] then s else AddToCartOp(AddAll(s, ps[..|ps| - 1]), ps[|ps| - 1])
  }

  /** The position of the only line with key `k`, its quantity, and what the other lines are. */
  predicate SingleLineFor(items: seq<Line>, k: Key, i: nat, q: int) {
    && i < |items| && KeyOf(items[i].item) == k && items[i].quantity == q
    && forall j :: 0 <= j < |items| && j != i ==> KeyOf(items[j].item) != k
  }

  /** Repeated adds of one key, starting from a cart without it, leave exactly
      one line with that key, whose quantity is the sum of what was added, and
      they leave every other line alone. */
  lemma {:induction false} AddSameKeySums(s: CartState, ps: seq<Payload>, k: Key)
    requires ps != [] && !HasKey(s.items, k)
    requires forall j :: 0 <= j < |ps| ==> KeyOf(ps[j].item) == k
    ensures var r := AddAll(s, ps).items;
      && |r| == |s.items| + 1
      && r[..|s.items|] == s.items
      && SingleLineFor(r, k, |s.items|, SumIncrements(ps))
  {
    var last := ps[|ps| - 1];
    var init := ps[..|ps| - 1];
    if init == [] {
      assert AddAll(s, init) == s;
      assert SumIncrements(ps) == SumIncrements(init) + Increment(last);
    } else {
      AddSameKeySums(s, init, k);
      var mid := AddAll(s, init);
      var n := |s.items|;
      assert HasKey(mid.items, k) by { assert KeyOf(mid.items[n].item) == k; }
      BumpPointwise(mid.items, k, Increment(last));
      var r := AddAll(s, ps).items;
      assert r == Bump(mid.items, k, Increment(last));
      assert r[..n] == s.items by {
        forall j | 0 <= j < n ensures r[j] == s.items[j] {
          assert mid.items[j] == s.items[j];
        }
      }
    }
  }

  /** Adding {id p1, price 10.00, size M, colour navy} with quantity 2 and then
      the same key with quantity 3 gives one line of quantity 5 and a total of 50.00. */
  lemma AddSameKeyExample()
    ensures var item := Item("p1", "Tee", 1000, Some("M"), Some("navy"));
      var r := AddToCartOp(AddToCartOp(InitialState, Payload(item, Some(2))), Payload(item, Some(3)));
      r.items == [Line(item, 5)] && GetCartTotal(r) == 5000 && GetCartItemsCount(r) == 5
  {
    var item := Item("p1", "Tee", 1000, Some("M"), Some("navy"));
    var s1 := AddToCartOp(InitialState, Payload(item, Some(2)));
    assert s1.items == [Line(item, 2)];
    assert HasKey(s1.items, KeyOf(item)) by { assert KeyOf(s1.items[0].item) == KeyOf(item); }
    BumpPointwise(s1.items, KeyOf(item), 3);
  }

  // ---------------------------------------------------------------------------
  // REMOVE_FROM_CART, UPDATE_QUANTITY and the updateQuantity wrapper

  /** Removing by id drops every line with that id, whatever its size or colour,
      keeps every other line as often as it occurred, and keeps their order. */
  lemma RemoveDropsEveryVariant(s: CartState, id: string)
    ensures var r := RemoveFromCartOp(s, id);
      && r.isCartOpen == s.isCartOpen
      && (forall l :: l in r.items ==> l.item.id != id)
      && (forall l: Line :: l.item.id != id ==> multiset(r.items)[l] == multiset(s.items)[l])
      && (forall a, b :: s.items == a + b ==> r.items == WithoutId(a, id) + WithoutId(b, id))
  {
    WithoutIdContents(s.items, id);
    forall a, b | s.items == a + b ensures WithoutId(s.items, id) == WithoutId(a, id) + WithoutId(b, id) {
      WithoutIdAppend(a, b, id);
    }
  }

  /** Removing an id that no line carries changes nothing. */
  lemma {:induction false} RemoveAbsentIdIsIdentity(items: seq<Line>, id: string)
    requires forall i :: 0 <= i < |items| ==> items[i].item.id != id
    ensures WithoutId(items, id) == items
  {
    if items != [] {
      RemoveAbsentIdIsIdentity(items[1..], id);
    }
  }

  /** `updateQuantity(id, q)` with `q <= 0` is exactly `removeFromCart(id)`. */
  lemma UpdateNonPositiveRemoves(s: CartState, id: string, q: int)
    requires q <= 0
    ensures UpdateQuantityOp(s, id, q) == RemoveFromCartOp(s, id)
    ensures forall l :: l in UpdateQuantityOp(s, id, q).items ==> l.item.id != id
  {
    WithoutIdContents(s.items, id);
  }

  /** `updateQuantity(id, q)` with `q > 0` sets `q` on every line with that id
      (all sizes and colours) and changes nothing else. */
  lemma UpdatePositiveSetsEveryVariant(s: CartState, id: string, q: int)
    requires q > 0
    ensures var r := UpdateQuantityOp(s, id, q);
      && r.isCartOpen == s.isCartOpen
      && |r.items| == |s.items|
      && forall i :: 0 <= i < |s.items| ==>
           (r.items[i] == if s.items[i].item.id == id then Line(s.items[i].item, q) else s.items[i])
  {
    SetQuantityPointwise(s.items, id, q);
  }

  /** `updateQuantity(id, 0)` and `updateQuantity(id, -5)` do the same thing. */
  lemma UpdateZeroSameAsNegative(s: CartState, id: string)
    ensures UpdateQuantityOp(s, id, 0) == UpdateQuantityOp(s, id, -5) == RemoveFromCartOp(s, id)
  {
  }

  // ---------------------------------------------------------------------------
  // CLEAR_CART, TOGGLE_CART, unknown actions

  lemma ClearKeepsVisibility(s: CartState)
    ensures ClearCartOp(s) == CartState([], s.isCartOpen)
    ensures GetCartTotal(ClearCartOp(s)) == 0 && GetCartItemsCount(ClearCartOp(s)) == 0
  {
  }

  lemma ToggleFlipsVisibilityOnly(s: CartState)
    ensures ToggleCartOp(s).items == s.items
    ensures ToggleCartOp(s).isCartOpen == !s.isCartOpen
    ensures ToggleCartOp(ToggleCartOp(s)) == s
    ensures GetCartTotal(ToggleCartOp(s)) == GetCartTotal(s)
    ensures GetCartItemsCount(ToggleCartOp(s)) == GetCartItemsCount(s)
  {
  }

  lemma UnknownActionIsIdentity(s: CartState, t: string)
    ensures Reduce(s, OtherAction(t)) == s
  {
  }

  lemma InitialStateEmptyAndClosed()
    ensures InitialState.items == [] && !InitialState.isCartOpen
    ensures GetCartTotal(InitialState) == 0 && GetCartItemsCount(InitialState) == 0
  {
  }

  // ---------------------------------------------------------------------------
  // The totals as folds

  /** The folds over a concatenation add up. */
  lemma {:induction false} TotalAppend(a: seq<Line>, b: seq<Line>)
    ensures Total(a + b) == Total(a) + Total(b)
    ensures ItemsCount(a + b) == ItemsCount(a) + ItemsCount(b)
  {
    if b != [] {
      var b' := b[..|b| - 1];
      assert (a + b)[..|a + b| - 1] == a + b';
      TotalAppend(a, b');
    } else {
      assert a + b == a;
    }
  }

  /** Splitting the lines around one line splits the total and the count. */
  lemma TotalAround(a: seq<Line>, x: Line, b: seq<Line>)
    ensures Total(a + [x] + b) == Total(a) + LineTotal(x) + Total(b)
    ensures ItemsCount(a + [x] + b) == ItemsCount(a) + x.quantity + ItemsCount(b)
  {
    TotalAppend(a + [x], b);
    TotalAppend(a, [x]);
    assert [x][..0] == [];
  }

  /** The total is the sum of price times quantity whatever order the lines are
      in: two carts holding the same lines, in any order, have the same total and count. */
  lemma {:induction false} TotalIgnoresOrder(a: seq<Line>, b: seq<Line>)
    requires multiset(a) == multiset(b)
    ensures Total(a) == Total(b)
    ensures ItemsCount(a) == ItemsCount(b)
  {
    if a != [] {
      MatchingLine(a, b);
      var j :| 0 <= j < |b| && b[j] == a[0] && multiset(b[..j] + b[j + 1..]) == multiset(a[1..]);
      TotalIgnoresOrder(a[1..], b[..j] + b[j + 1..]);
      TotalHead(a);
      TotalAt(b, j);
    }
  }

  lemma TotalHead(a: seq<Line>)
    requires a != []
    ensures Total(a) == Total(a[1..]) + LineTotal(a[0])
    ensures ItemsCount(a) == ItemsCount(a[1..]) + a[0].quantity
  {
    TotalAt(a, 0);
    assert a[..0] + a[1..] == a[1..];
  }

  /** The first line of `a` sits somewhere in `b`; dropping it from both
      leaves equal multisets. */
  lemma MatchingLine(a: seq<Line>, b: seq<Line>)
    requires a != [] && multiset(a) == multiset(b)
    ensures exists j :: 0 <= j < |b| && b[j] == a[0] && multiset(b[..j] + b[j + 1..]) == multiset(a[1..])
  {
    var x, tail := a[0], a[1..];
    assert multiset(a)[x] > 0;
    assert x in b;
    var j :| 0 <= j < |b| && b[j] == x;
    var rest := b[..j] + b[j + 1..];
    MultisetWithout(b, j);
    assert multiset(rest) == multiset(b) - multiset{x};
    assert a == [x] + tail;
    assert multiset(tail) == multiset(a) - multiset{x};
  }

  /** Dropping the line at `j` takes one copy of it out of the multiset. */
  lemma MultisetWithout(b: seq<Line>, j: nat)
    requires j < |b|
    ensures multiset(b[..j] + b[j + 1..]) == multiset(b) - multiset{b[j]}
  {
    var front, x, back := b[..j], b[j], b[j + 1..];
    assert b == front + [x] + back;
  }

  /** Dropping the line at `j` takes its share out of the total and the count. */
  lemma TotalAt(b: seq<Line>, j: nat)
    requires j < |b|
    ensures Total(b) == Total(b[..j] + b[j + 1..]) + LineTotal(b[j])
    ensures ItemsCount(b) == ItemsCount(b[..j] + b[j + 1..]) + b[j].quantity
  {
    var front, x, back := b[..j], b[j], b[j + 1..];
    SplitAt(b, j);
    TotalWithout(front, x, back);
  }

  lemma SplitAt(b: seq<Line>, j: nat)
    requires j < |b|
    ensures b == b[..j] + [b[j]] + b[j + 1..]
  {
  }

  /** Dropping a line takes its share out of the total and the count. */
  lemma TotalWithout(front: seq<Line>, x: Line, back: seq<Line>)
    ensures Total(front + [x] + back) == Total(front + back) + LineTotal(x)
    ensures ItemsCount(front + [x] + back) == ItemsCount(front + back) + x.quantity
  {
    TotalAround(front, x, back);
    TotalAppend(front, back);
  }

  /** Merging with unique keys raises the total by the stored line's price
      times `payload.quantity || 1`. */
  lemma AddMergedTotal(s: CartState, p: Payload, j: nat)
    requires UniqueKeys(s.items)
    requires j < |s.items| && KeyOf(s.items[j].item) == KeyOf(p.item)
    ensures GetCartTotal(AddToCartOp(s, p)) == GetCartTotal(s) + s.items[j].item.price * OrOne(p.quantity)
    ensures GetCartItemsCount(AddToCartOp(s, p)) == GetCartItemsCount(s) + OrOne(p.quantity)
  {
    var k, inc := KeyOf(p.item), Increment(p);
    assert HasKey(s.items, k);
    var r := Bump(s.items, k, inc);
    BumpPointwise(s.items, k, inc);
    var a, x, b := s.items[..j], s.items[j], s.items[j + 1..];
    var y := Line(x.item, x.quantity + inc);
    assert s.items == a + [x] + b;
    forall i | 0 <= i < |r| ensures r[i] == (a + [y] + b)[i] {
      if i != j {
        assert KeyOf(s.items[i].item) != k by {
          if i < j { assert KeyOf(s.items[i].item) != KeyOf(s.items[j].item); }
          else { assert KeyOf(s.items[j].item) != KeyOf(s.items[i].item); }
        }
      }
    }
    assert r == a + [y] + b;
    TotalAround(a, x, b);
    TotalAround(a, y, b);
    LineTotalGrows(x, inc);
  }

  lemma LineTotalGrows(l: Line, inc: int)
    ensures LineTotal(Line(l.item, l.quantity + inc)) == LineTotal(l) + l.item.price * inc
  {
  }

  /** Adding with unique keys raises the item count by `payload.quantity || 1`,
      and the total by that many times the price of the line it lands on: the
      payload's price for a new line, the stored line's price when merged. */
  lemma AddRaisesTotals(s: CartState, p: Payload)
    requires UniqueKeys(s.items)
    ensures GetCartItemsCount(AddToCartOp(s, p)) == GetCartItemsCount(s) + OrOne(p.quantity)
    ensures !HasKey(s.items, KeyOf(p.item)) ==>
      GetCartTotal(AddToCartOp(s, p)) == GetCartTotal(s) + p.item.price * OrOne(p.quantity)
    ensures forall j :: 0 <= j < |s.items| && KeyOf(s.items[j].item) == KeyOf(p.item) ==>
      GetCartTotal(AddToCartOp(s, p)) == GetCartTotal(s) + s.items[j].item.price * OrOne(p.quantity)
  {
    var k := KeyOf(p.item);
    if HasKey(s.items, k) {
      var j :| 0 <= j < |s.items| && KeyOf(s.items[j].item) == k;
      AddMergedTotal(s, p, j);
      forall j' | 0 <= j' < |s.items| && KeyOf(s.items[j'].item) == k
        ensures GetCartTotal(AddToCartOp(s, p)) == GetCartTotal(s) + s.items[j'].item.price * OrOne(p.quantity)
      {
        AddMergedTotal(s, p, j');
      }
    } else {
      var l := Line(p.item, Increment(p));
      TotalAppend(s.items, [l]);
      assert [l][..0] == [];
    }
  }
}
