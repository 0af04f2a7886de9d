// The product page: the product it shows (from the navigation state or a
// built-in fallback), the image list, the size/colour guard in front of the
// two cart buttons, the cart item they build, and the quantity stepper.
module ProductDetail {
  import opened JsText
  import opened Pricing
  import opened Cart

  /** A product field that is meant to be an array but may hold anything. */
  datatype JsList<T> = ArrayValue(elems: seq<T>) | NotArray

  /** `Array.isArray(x) ? x : []`. */
  function SafeList<T>(x: JsList<T>): (r: seq<T>)
    ensures x.NotArray? ==> r == []
    ensures x.ArrayValue? ==> r == x.elems
  {
    match x
    case ArrayValue(elems) => elems
    case NotArray => []
  }

  /** The product fields the page reads. Prices are integer cents; colours
      are their names, which is what the colour buttons select. */
  datatype Product = Product(
    id: string,
    name: string,
    price: int,
    mrp: Option<int>,
    imageUrl: Option<string>,
    images: JsList<string>,
    features: JsList<string>,
    sizes: JsList<string>,
    colors: JsList<string>)

  const MockImages := ["/images/tshirt1.jpg", "/images/tshirt2.jpg", "/images/tshirt3.jpg"]
  const Placeholder := "/placeholder-image.jpg"

  /** The built-in product shown when the page is opened without one. */
  function MockProduct(productId: string): Product {
    Product(productId, "Premium Cotton T-Shirt", 2999, Some(3999), None,
      ArrayValue(MockImages),
      ArrayValue(["100% Organic Cotton", "Machine Washable", "Pre-shrunk", "Breathable Fabric", "Eco-friendly"]),
      ArrayValue(["S", "M", "L", "XL", "XXL"]),
      ArrayValue(["Black", "White", "Navy Blue", "Red"]))
  }

  /** `productFromState || { ...fallback }`: any product object is truthy. */
  function PageProduct(fromState: Option<Product>, productId: string): (p: Product)
    ensures fromState.Some? ==> p == fromState.value
    ensures fromState.None? ==> p == MockProduct(productId)
  {
    if fromState.Some? then fromState.value else MockProduct(productId)
  }

  predicate Truthy(s: Option<string>) {
    s.Some? && s.value != ""
  }

  /** `getProductImages`. */
  function ProductImages(fromState: Option<Product>, productId: string): seq<string> {
    var product := PageProduct(fromState, productId);
    if fromState.Some? && Truthy(fromState.value.imageUrl) then [fromState.value.imageUrl.value]
    else if fromState.Some? && fromState.value.images.ArrayValue? then fromState.value.images.elems
    else if product.images.ArrayValue? then product.images.elems
    else [Placeholder]
  }

  /** The images come from the state product's `image_url`, else its `images`
      array, else (a state product with neither) the placeholder; without a
      state product they are the fallback product's three images. */
  lemma ProductImagesCases(fromState: Option<Product>, productId: string)
    ensures fromState.Some? && Truthy(fromState.value.imageUrl) ==>
      ProductImages(fromState, productId) == [fromState.value.imageUrl.value]
    ensures fromState.Some? && !Truthy(fromState.value.imageUrl) && fromState.value.images.ArrayValue? ==>
      ProductImages(fromState, productId) == fromState.value.images.elems
    ensures fromState.Some? && !Truthy(fromState.value.imageUrl) && fromState.value.images.NotArray? ==>
      ProductImages(fromState, productId) == [Placeholder]
    ensures fromState.None? ==> ProductImages(fromState, productId) == MockImages
  {
  }

  /** The fallback product is discounted 25%. */
  lemma MockProductSaving(productId: string)
    ensures Discount(MockProduct(productId).price, MockProduct(productId).mrp) == 25
  {
    MockProductDiscount();
  }

  // ---------------------------------------------------------------------------
  // Add to cart and Buy now

  /** The product offers sizes (or colours) but none has been chosen. */
  predicate MissingChoice(p: Product, selectedSize: string, selectedColor: string) {
    (|SafeList(p.sizes)| > 0 && selectedSize == "") || (|SafeList(p.colors)| > 0 && selectedColor == "")
  }

  /** `cartItem`: the product with the chosen size and colour, 'One Size' and
      'Standard' when there is nothing to choose, and the chosen quantity. */
  function CartItem(p: Product, selectedSize: string, selectedColor: string, quantity: int): Payload {
    var size := if |SafeList(p.sizes)| > 0 then selectedSize else "One Size";
    var color := if |SafeList(p.colors)| > 0 then selectedColor else "Standard";
    Payload(Item(p.id, p.name, p.price, Some(size), Some(color)), Some(quantity))
  }

  /** What a button press leaves behind: the cart, whether this press raises
      the alert (`false` means the press does not call `setShowAlert`, so an
      alert still showing from an earlier press stays until its timer ends),
      and whether the page goes on to checkout. */
  datatype Press = Press(cart: CartState, showAlert: bool, toCheckout: bool)

  /** `handleAddToCart`: the alert shows whether or not the item was added. */
  function AddToCartPressed(cart: CartState, p: Product, selectedSize: string, selectedColor: string, quantity: int): Press {
    if MissingChoice(p, selectedSize, selectedColor) then Press(cart, true, false)
    else Press(AddToCartOp(cart, CartItem(p, selectedSize, selectedColor, quantity)), true, false)
  }

  /** `handleBuyNow`: adds and goes to checkout, or only shows the alert. */
  function BuyNowPressed(cart: CartState, p: Product, selectedSize: string, selectedColor: string, quantity: int): Press {
    if MissingChoice(p, selectedSize, selectedColor) then Press(cart, true, false)
    else Press(AddToCartOp(cart, CartItem(p, selectedSize, selectedColor, quantity)), false, true)
  }

  /** Without a required choice neither button touches the cart or leaves the page. */
  lemma GuardBlocksBothButtons(cart: CartState, p: Product, selectedSize: string, selectedColor: string, quantity: int)
    requires MissingChoice(p, selectedSize, selectedColor)
    ensures AddToCartPressed(cart, p, selectedSize, selectedColor, quantity) == Press(cart, true, false)
    ensures BuyNowPressed(cart, p, selectedSize, selectedColor, quantity) == Press(cart, true, false)
  {
  }

  /** With the choices made, both buttons add the same item to the cart, Buy
      now then goes to checkout; the item is the product with the chosen
      size (or 'One Size') and colour (or 'Standard') and the quantity. */
  lemma ButtonsAddTheChosenItem(cart: CartState, p: Product, selectedSize: string, selectedColor: string, quantity: int)
    requires !MissingChoice(p, selectedSize, selectedColor)
    ensures var item := CartItem(p, selectedSize, selectedColor, quantity);
      && item.item.id == p.id && item.item.price == p.price && item.quantity == Some(quantity)
      && item.item.selectedSize == Some(if SafeList(p.sizes) == [] then "One Size" else selectedSize)
      && item.item.selectedColor == Some(if SafeList(p.colors) == [] then "Standard" else selectedColor)
      && item.item.selectedSize != Some("") && item.item.selectedColor != Some("")
      && AddToCartPressed(cart, p, selectedSize, selectedColor, quantity).cart == AddToCartOp(cart, item)
      && BuyNowPressed(cart, p, selectedSize, selectedColor, quantity) == Press(AddToCartOp(cart, item), false, true)
  {
  }

  /** A product whose sizes and colours are not arrays needs no choice, and
      its item is 'One Size' / 'Standard'. */
  lemma NonArrayOptionsNeedNoChoice(p: Product, selectedSize: string, selectedColor: string, quantity: int)
    requires p.sizes.NotArray? && p.colors.NotArray?
    ensures !MissingChoice(p, selectedSize, selectedColor)
    ensures CartItem(p, selectedSize, selectedColor, quantity).item.selectedSize == Some("One Size")
    ensures CartItem(p, selectedSize, selectedColor, quantity).item.selectedColor == Some("Standard")
  {
  }

  // ---------------------------------------------------------------------------
  // The quantity stepper

  /** The minus button: disabled at 1 or less, where the handler does nothing either. */
  function MinusPressed(quantity: int): int {
    if quantity > 1 then quantity - 1 else quantity
  }

  function PlusPressed(quantity: int): int {
    quantity + 1
  }

  /** The number input: `parseInt(value) || 1`. */
  function QuantityTyped(value: string): int {
    OrOne(ParseInt(value))
  }

  /** The buttons never take the quantity below 1 from 1 or more; minus
      lowers it by one exactly when it is above 1. */
  lemma StepperButtons(quantity: int)
    ensures quantity >= 1 ==> MinusPressed(quantity) >= 1
    ensures MinusPressed(quantity) == quantity - 1 <==> quantity > 1
    ensures quantity >= 1 ==> PlusPressed(quantity) > quantity >= 1
  {
  }

  /** Typing gives 1 for text with no number or for 0, the number otherwise. */
  lemma TypedQuantity(value: string)
    ensures QuantityTyped(value) != 0
    ensures ParseInt(value).None? || ParseInt(value) == Some(0) ==> QuantityTyped(value) == 1
    ensures ParseInt(value).Some? && ParseInt(value) != Some(0) ==> QuantityTyped(value) == ParseInt(value).value
  {
  }

  /** An empty box and a typed 0 both give 1; a typed negative number is kept as it is. */
  lemma TypedQuantityExamples()
    ensures QuantityTyped("") == 1 && QuantityTyped("0") == 1
    ensures QuantityTyped("-3") == -3
  {
    EmptyIsNotANumber();
    ParseIntOfDigits("0");
    MinusThree();
  }

  lemma MinusThree()
    ensures ParseInt("-3") == Some(-3)
  {
    ParseIntOfNegative("3");
    assert DecimalValue("3") == 3;
    assert "-" + "3" == "-3";
  }

  lemma EmptyIsNotANumber()
    ensures ParseInt("") == None
  {
    assert TrimStart("") == "";
  }
}
