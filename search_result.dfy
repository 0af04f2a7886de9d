// The search-results page: which list it shows, the result-count label, the
// title truncation, the discount badge, and the two cart buttons of a card.
module SearchResult {
  import opened JsText
  import opened Pricing
  import opened Cart

  /** The product fields a result card reads. Prices are integer cents. */
  datatype ResultProduct = ResultProduct(id: string, name: string, price: int, mrp: Option<int>)

  /** The search response: `products` and `results` may each be missing (any
      falsy value); an array, even an empty one, is truthy. */
  datatype Results = Results(products: Option<seq<ResultProduct>>, results: Option<seq<ResultProduct>>)

  /** `results.products || results.results || []`. */
  function ProductList(r: Results): seq<ResultProduct> {
    if r.products.Some? then r.products.value
    else if r.results.Some? then r.results.value
    else []
  }

  /** What the page renders: the missing-results notice when the navigation
      state has no results, otherwise the product list. */
  datatype Page = NoResults | Listing(products: seq<ResultProduct>)

  function ShowPage(results: Option<Results>): Page {
    if results.None? then NoResults else Listing(ProductList(results.value))
  }

  /** `products` wins whenever present, even empty; `results` is used only
      when `products` is missing; with neither the list is empty. Missing
      results give the notice rather than an empty list. */
  lemma ProductListFallback(r: Results)
    ensures ShowPage(None) == NoResults && ShowPage(Some(r)) == Listing(ProductList(r))
    ensures r.products.Some? ==> ProductList(r) == r.products.value
    ensures r.products.None? && r.results.Some? ==> ProductList(r) == r.results.value
    ensures r.products.None? && r.results.None? ==> ProductList(r) == []
    ensures ProductList(Results(Some([]), r.results)) == []
  {
  }

  /** "Found N product" with an 's' unless exactly one was found. */
  function CountNoun(n: nat): string {
    "product" + (if n != 1 then "s" else "")
  }

  lemma CountNounPlural(n: nat)
    ensures CountNoun(n) == "product" <==> n == 1
    ensures n != 1 ==> CountNoun(n) == "products"
  {
    if n != 1 {
      assert |CountNoun(n)| == 8;
    }
  }

  /** The card title: names over 50 characters are cut to 50 and get '...'. */
  function Title(name: string): string {
    if |name| > 50 then name[..50] + "..." else name
  }

  /** A long name keeps its first 50 characters followed by '...', a name of
      at most 50 characters is shown unchanged, no title exceeds 53
      characters, and cutting a cut title changes nothing. */
  lemma TitleTruncation(name: string)
    ensures |name| <= 50 ==> Title(name) == name
    ensures |name| > 50 ==> |Title(name)| == 53 && StartsWith(Title(name), name[..50]) && Title(name)[50..] == "..."
    ensures |Title(name)| <= 53
    ensures Title(Title(name)) == Title(name)
  {
    if |name| > 50 {
      var t := Title(name);
      assert t[..50] == name[..50];
    }
  }

  /** The red discount badge of a card. */
  predicate ShowsBadge(p: ResultProduct) {
    Discount(p.price, p.mrp) > 0
  }

  /** The badge shows exactly when the list price beats the price by at least
      half a percent of it (for a nonnegative price). */
  lemma BadgeWhenDiscounted(p: ResultProduct)
    requires p.price >= 0
    ensures ShowsBadge(p) <==> p.mrp.Some? && p.mrp.value > p.price && 200 * (p.mrp.value - p.price) >= p.mrp.value
  {
    DiscountBadgeShown(p.price, p.mrp);
  }

  /** `addToCart(product)`: the product itself is the payload, with no
      quantity, size or colour. */
  function PayloadOf(p: ResultProduct): Payload {
    Payload(Item(p.id, p.name, p.price, None, None), None)
  }

  function AddPressed(s: CartState, p: ResultProduct): CartState {
    AddToCartOp(s, PayloadOf(p))
  }

  /** Buy now: add, then toggle the cart. */
  function BuyNowPressed(s: CartState, p: ResultProduct): CartState {
    ToggleCartOp(AddToCartOp(s, PayloadOf(p)))
  }

  /** Buy now adds one unit like the add button and toggles the sidebar (it
      opens a closed one); a product not yet in the cart becomes a new last line. */
  lemma BuyNowAddsThenToggles(s: CartState, p: ResultProduct)
    ensures BuyNowPressed(s, p).items == AddPressed(s, p).items
    ensures BuyNowPressed(s, p).isCartOpen == !s.isCartOpen
    ensures !HasKey(s.items, KeyOf(PayloadOf(p).item)) ==>
      BuyNowPressed(s, p).items == s.items + [Line(PayloadOf(p).item, 1)]
  {
    if !HasKey(s.items, KeyOf(PayloadOf(p).item)) {
      AddAppendsNewLine(s, PayloadOf(p));
    }
  }
}
