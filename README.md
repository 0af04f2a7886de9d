# Storefront logic, modelled and proved in Dafny

This project models the sequential decision logic of a React clothing
storefront and proves what that logic promises. It covers:

- **The cart store** (`Cart`). It models `cartReducer` with its five actions and its default case, the initial state, the provider's `updateQuantity` wrapper, and the two folds `getCartTotal` and `getCartItemsCount`.
  - `ADD_TO_CART` merges lines on the key (id, selected size, selected colour).
  - `REMOVE_FROM_CART` and `UPDATE_QUANTITY` match on the id alone.
- **The search-query interpreter** (`Header`). It covers:
  - `processSearchQuery`: the price chain of three patterns, then three first-match scans over fixed tables of whole-word alternatives;
  - the query parameters `handleSubmit` builds;
  - the query-analysis badge;
  - the file checks of `handleImageUpload`.

  No regular-expression engine is modelled. Each pattern is a predicate on positions (what a leftmost match finds), and a hand-coded scanning method is proved to compute exactly that.
- **The form validators and small product and cart rules.** These are:
  - registration validation and the password-strength meter (`Register`);
  - login validation, the demo logins and the alert style (`Login`);
  - the e-mail shape test both forms share (`EmailPattern`);
  - checkout validation and its submit gate (`Checkout`);
  - the product page's images, size/colour guard, cart item and quantity stepper (`ProductDetail`);
  - the cart sidebar's quantity guard and controls (`CartSidebar`);
  - the search-result list, title, count label and discount badge (`SearchResult`).
- **Shared helpers.** `calculateDiscount` is written identically in two components and is defined once, in `Pricing`. The JavaScript string and number behaviour the code relies on is in `JsText`:
  - ASCII `\s`, `\w` and `toLowerCase`;
  - `trim` and `trimStart`;
  - `parseInt` in base 10;
  - `x || 1`;
  - `includes` and `join`.

Prices are integer cents, so `Math.round(((mrp - price) / mrp) * 100)` is computed exactly as floor((200·(mrp−price) + mrp) / (2·mrp)). Integers are unbounded.

Each file follows the form of its source. The cart reducer, the checkout validator and the product, sidebar and result rules return fresh values, so they are functions with lemmas. The header's scans and parameter building, and the validators that fill an error object step by step, are methods. Each such method's `ensures` ties its result to a specification function, and the properties are proved about that function.

## Model

| member | source | states |
|---|---|---|
| Cart.AddMergesExistingLine | src/context/CartContext.jsx:9-25 | When the key is already in the cart, every line with that key gains the payload's quantity, or 1 when that is missing or 0. All other lines, the order and the open flag are unchanged. |
| Cart.AddMergesExactlyOneLine | src/context/CartContext.jsx:9-25 | With unique keys, only the one matching line changes. |
| Cart.AddAppendsNewLine | src/context/CartContext.jsx:27-33 | A new key appends exactly one line at the end, with quantity 1 when the payload's quantity is missing or 0. The earlier lines stay as a prefix. |
| Cart.AddKeepsKeysUnique | src/context/CartContext.jsx:9-33 | If no two lines share a key before an add, none share one after it. |
| Cart.AddSameKeySums | src/context/CartContext.jsx:9-33 | Repeated adds of one new key leave exactly one line for it, at the end. Its quantity is the sum of the increments, and the other lines are untouched. |
| Cart.AddSameKeyExample | src/context/CartContext.jsx:8-33 | Adding 2 and then 3 of one item gives a single line of 5 and a total of 50.00. |
| Cart.RemoveDropsEveryVariant | src/context/CartContext.jsx:35-39 | Removing by id drops every line with that id, whatever its size or colour. Every other line keeps its multiplicity and its order. |
| Cart.RemoveAbsentIdIsIdentity | src/context/CartContext.jsx:35-39 | Removing an id that no line carries changes nothing. |
| Cart.UpdateNonPositiveRemoves | src/context/CartContext.jsx:84-90 | `updateQuantity` with q ≤ 0 is exactly `removeFromCart`. |
| Cart.UpdatePositiveSetsEveryVariant | src/context/CartContext.jsx:41-49 | With q > 0, every line with the id (every variant) gets quantity q, and nothing else changes. |
| Cart.UpdateZeroSameAsNegative | src/context/CartContext.jsx:84-90 | Quantity 0 and a negative quantity both remove. |
| Cart.ClearKeepsVisibility | src/context/CartContext.jsx:51-55 | `CLEAR_CART` empties the items, keeps `isCartOpen`, and zeroes both folds. |
| Cart.ToggleFlipsVisibilityOnly | src/context/CartContext.jsx:57-61 | `TOGGLE_CART` flips the flag and keeps the items, the total and the count. Two toggles restore the state. |
| Cart.UnknownActionIsIdentity | src/context/CartContext.jsx:63-64 | An unknown action returns the state unchanged. |
| Cart.InitialStateEmptyAndClosed | src/context/CartContext.jsx:68-71 | The cart starts empty and closed, with total and count 0. |
| Cart.TotalAppend | src/context/CartContext.jsx:100-106 | Both folds over a concatenation are the sums of the folds over its parts. |
| Cart.TotalIgnoresOrder | src/context/CartContext.jsx:100-106 | Two carts holding the same lines in any order have the same total and the same count. |
| Cart.AddRaisesTotals | src/context/CartContext.jsx:8-33 | With unique keys, an add raises the count by the payload's quantity (1 when missing or 0). It raises the total by that many times the price of the line it lands on: the payload's price for a new line, the stored price when merged. |
| Cart.AddMergedTotal | src/context/CartContext.jsx:15-25 | A merge raises the total by the stored line's price times the increment. |
| Header.FirstMatchIsFirstMatchingRow | src/layout/Header.jsx:103-124 | A table scan gives '' exactly when no row matches. Otherwise it gives the name of a matching row such that no earlier row matches. |
| Header.FirstMatchPrefersEarlierRow | src/layout/Header.jsx:103-108 | When an earlier row matches, a later row's name is never chosen. |
| Header.TestWord | src/layout/Header.jsx:45-73 | The scan finds `\b w \b` exactly when some offset holds w with a word boundary on both sides. |
| Header.TestEntry | src/layout/Header.jsx:104 | `pattern.test`: some alternative occurs as a whole word. |
| Header.ScanTable | src/layout/Header.jsx:103-108 | The `for…of` loop with `break` computes the first matching row's name, or ''. |
| Header.FirstSomeIsLeftmost | src/layout/Header.jsx:86-88 | A non-global `match` finds the leftmost offset at which the pattern matches, and none means no offset matches. |
| Header.ReadDigits | src/layout/Header.jsx:91 | The greedy digit run `\d+` and the value `parseInt` reads from it. |
| Header.FindKeywordNumber | src/layout/Header.jsx:39-41 | The scan computes the leftmost match of a keyword alternation followed by `\s*(\d+)`: keywords tried in order at each offset, optional whitespace, greedy digits. |
| Header.FindRange | src/layout/Header.jsx:40 | The scan computes the leftmost match of `(\d+)\s*-\s*(\d+)` and both numbers it captures. |
| Header.ProcessSearchQuery | src/layout/Header.jsx:31-128 | The step-by-step fill of the result record equals the interpretation of the raw input. |
| Header.InterpretEmptyAndOriginal | src/layout/Header.jsx:32-34 | Empty input gives empty fields, no range and no original query. Any other input keeps its lower-cased, trimmed text. |
| Header.InterpretDimensionsAreFirstMatches | src/layout/Header.jsx:44-74 | Category, style and colour are each '' exactly when no row of their own table matches, independently of one another. |
| Header.UnderRuleAt | src/layout/Header.jsx:90-92 | When the leftmost match of the under-keywords reads N, the range is [0, N], or [0, 500] for N = 0, whatever the other two patterns find. |
| Header.RangeRuleAt | src/layout/Header.jsx:93-96 | With no under-keyword match at any offset, the leftmost N-M match gives [N, M] with both numbers as read, never reordered. |
| Header.AboveRuleAt | src/layout/Header.jsx:97-99 | With neither an under-keyword nor an N-M match at any offset, the leftmost above-keyword match N gives [N, 10000], or [500, 10000] for N = 0. |
| Header.NoPriceRule | src/layout/Header.jsx:90-100 | When none of the three patterns matches at any offset, no price range is set. |
| Header.KeywordNeedsHead | src/layout/Header.jsx:39-41 | A keyword-number match at an offset begins with the first two letters of one of the keywords. |
| Header.UnderNeedsHead | src/layout/Header.jsx:39 | An under-rule match begins with 'un', 'be', 'le' or 'up'. |
| Header.AboveNeedsHead | src/layout/Header.jsx:41 | An above-rule match begins with 'ab', 'ov' or 'mo'. |
| Header.RangeNeedsDash | src/layout/Header.jsx:40 | An N-M match begins at a digit and has a '-' somewhere after it. |
| Header.InterpretNormalized | src/layout/Header.jsx:31-128 | For non-empty text that is already lower-case and trimmed, the result is the style, category and colour scans and the price rules applied to that text, which is also kept as the original query. |
| Header.WordBesideSeparator | src/layout/Header.jsx:45-73 | A whole word of a text split at a non-word character that the word does not contain is a whole word of one side. |
| Header.WordsOfSpaced | src/layout/Header.jsx:45-73 | Every table word that occurs whole in 'a b' occurs whole in a or in b. |
| Header.WordsOfRun | src/layout/Header.jsx:45-73 | In a run of word characters, the only whole table word can be the run itself. |
| Header.WordsOfNonLetters | src/layout/Header.jsx:45-73 | Text without a lower-case letter holds no table word. |
| Header.NoRowMatches | src/layout/Header.jsx:103-124 | When no word of any row is among the query's whole words, the scan gives ''. |
| Header.RowMatches | src/layout/Header.jsx:103-124 | When row r matches and no word of an earlier row is among the query's whole words, the scan gives row r's name. |
| Header.SearchOnly | src/layout/Header.jsx:142-164 | With no style, category, colour or range, the parameters are exactly one `search` parameter holding the raw query. |
| HeaderExamples.CategoriesAreTableWords | src/layout/Header.jsx:44-51 | Every category alternative is a lower-case word without spaces. |
| HeaderExamples.StylesAreTableWords | src/layout/Header.jsx:54-60 | Every style alternative is a lower-case word without spaces. |
| HeaderExamples.ColorsAreTableWords | src/layout/Header.jsx:63-74 | Every colour alternative is a lower-case word without spaces. |
| HeaderExamples.RangeKeptAsWritten | src/layout/Header.jsx:93-96 | '700-300' gives the range [700, 300], as written. |
| HeaderExamples.UnderBeatsRange | src/layout/Header.jsx:90-96 | '100-200 under 50' gives [0, 50]: the under-rule wins over an earlier range. |
| HeaderExamples.AboveZeroIsDefault | src/layout/Header.jsx:97-99 | 'above 0' gives [500, 10000]. |
| HeaderExamples.KeywordInsideWord | src/layout/Header.jsx:39 | 'shirtsunder500' gives [0, 500]: the price keywords need no word boundary. |
| HeaderExamples.FormalShirtUnder500 | src/layout/Header.jsx:31-128 | 'formal shirt under 500' gives style formal, category shirt, range [0, 500] and no colour. |
| HeaderExamples.RedDress300To700 | src/layout/Header.jsx:31-128 | '300-700 red dress' gives category dress, colour red, range [300, 700] and no style. |
| HeaderExamples.NonsenseXyz | src/layout/Header.jsx:31-128 | 'nonsense xyz' gives no style, category, colour or range, and keeps the text. |
| HeaderExamples.SubmitNonsense | src/layout/Header.jsx:130-164 | Submitting 'nonsense xyz' sends the single parameter `search` with the raw text. |
| HeaderExamples.Above1000 | src/layout/Header.jsx:31-128 | 'above 1000' gives the range [1000, 10000] and nothing else. |
| Header.EmitNames | src/layout/Header.jsx:144-159 | The emitted parameters are exactly the wanted names among those tried. |
| Header.EmitOrdered | src/layout/Header.jsx:144-159 | Parameters come out in the order style, category, color, min_price, max_price. |
| Header.EmitValues | src/layout/Header.jsx:144-159 | Each parameter carries its field's value, or a price bound in decimal. |
| Header.SearchAloneDescribes | src/layout/Header.jsx:161-164 | When nothing else is emitted, a lone `search` with the raw text is exactly what is wanted. |
| Header.DimensionsDescribe | src/layout/Header.jsx:142-164 | When something is emitted, no `search` is added. |
| Header.BuildParams | src/layout/Header.jsx:142-164 | The appends give exactly the wanted names, once each, in rank order, with their expected values. `search` appears only when nothing else does. |
| Header.SubmitParams | src/layout/Header.jsx:130-164 | A blank or whitespace-only query is not submitted. Any other query's parameters describe the interpretation of the raw (un-lowercased) query. |
| Header.PresentFour | src/layout/Header.jsx:644-648 | Pushing the non-empty parts in order is filtering the four candidates. |
| Header.BadgeLabel | src/layout/Header.jsx:642-650 | The badge joins the present parts (style, category, color, `₹min-max`) with ' • ', or shows 'general' when there are none. |
| Header.ImageUploadAcceptsOnlySmallImages | src/layout/Header.jsx:446-468 | A file reaches the search step exactly when its type starts with 'image/' and it is at most 10·1024·1024 bytes. The type is checked first. |
| Register.ScanLine | src/Login/Register.jsx:60 | Scanning one line computes the three lookaheads `(?=.*[a-z])`, `(?=.*[A-Z])` and `(?=.*\d)` at that offset. |
| Register.TestMixed | src/Login/Register.jsx:60 | The scan over every offset computes the lookahead test. |
| Register.TestClass | src/Login/Register.jsx:146-148 | `/[a-z]/`, `/[A-Z]/` and `/\d/` tests. |
| Register.MixedHasEveryClass | src/Login/Register.jsx:60 | Passing the lookahead test implies a lowercase letter, an uppercase letter and a digit all occur. |
| Register.MixedOnOneLine | src/Login/Register.jsx:60 | On text without line breaks, the lookahead test is equivalent to having all three classes. |
| Register.ValidateForm | src/Login/Register.jsx:38-73 | The error object equals that of the four checks in source order. The form is valid iff the object is empty iff every check passes. |
| Register.CheckFirstName | src/Login/Register.jsx:42-46 | The first-name block records its check's message, if any. |
| Register.CheckEmail | src/Login/Register.jsx:49-53 | The e-mail block records its check's message, if any. |
| Register.CheckPassword | src/Login/Register.jsx:56-62 | The password block records its check's message, if any. |
| Register.CheckConfirm | src/Login/Register.jsx:65-69 | The confirmation block records its check's message, if any. |
| Register.FormErrorsEmptyIffValid | src/Login/Register.jsx:71-72 | The error object is empty exactly when every check passes. |
| Register.FormErrorsByField | src/Login/Register.jsx:38-73 | Each field's entry is exactly its own check's message. No check overwrites another's, and lastName never has one. |
| Register.FirstNameErrorMeaning | src/Login/Register.jsx:42-46 | The first name fails when its trimmed text is empty or its untrimmed length is over 50. 'Required' wins. |
| Register.EmailErrorMeaning | src/Login/Register.jsx:49-53 | The e-mail fails exactly when it lacks the `\S+@\S+\.\S+` shape; it is 'required' when blank, else 'invalid'. |
| Register.PasswordErrorMeaning | src/Login/Register.jsx:56-62 | The password fails when shorter than 8 characters or without the three classes. Only the first failing message is recorded: required, then short, then plain. |
| Register.ConfirmErrorMeaning | src/Login/Register.jsx:65-69 | The confirmation fails when it is empty or differs from the password. The empty check comes first. |
| Register.ValidFormFacts | src/Login/Register.jsx:38-73 | The form is valid iff the trimmed first name is non-empty and the name has at most 50 characters, the e-mail has the shape, the password has 8 or more characters and all three classes, and the confirmation equals it. A valid password rates 100, Strong. |
| Register.DemoFillIsValid | src/Login/Register.jsx:131-139 | The demo fill passes validation. |
| Register.PasswordStrength | src/Login/Register.jsx:141-168 | The accumulator equals the specified meter, and the strength is one of 0, 25, 50, 75 and 100. |
| Register.StrengthBands | src/Login/Register.jsx:141-165 | Only the empty password has no label. Otherwise 0–1 criteria give Weak, 2 Fair, 3 Good, and Strong comes exactly with all 4 (at 100). |
| Register.HandleChangeClearsOnlyThatField | src/Login/Register.jsx:22-36 | An edit sets only that field. It clears only that field's error, and only when one is set. Every other value and error is kept. |
| EmailPattern.TestEmail | src/Login/Register.jsx:51 | The scan computes the unanchored `\S+@\S+\.\S+` test. |
| EmailPattern.ShapedIsNotBlank | src/Login/Register.jsx:49-53 | Text with the shape is never blank. |
| Login.ValidateForm | src/Login/Login.jsx:29-44 | The error object is the e-mail check plus the password check. The form is valid iff the object is empty iff the shape test passes and the password is not empty. |
| Login.FormErrorsEmptyIffValid | src/Login/Login.jsx:42-43 | The object is empty exactly when both checks pass. |
| Login.FormErrorsMeaning | src/Login/Login.jsx:32-40 | The e-mail is flagged iff it lacks the shape, with 'required' only for the empty string. The password is flagged iff it is empty, and the general key is never set. |
| Login.BlankEmailIsInvalid | src/Login/Login.jsx:32-36 | A whitespace-only e-mail is 'invalid', not 'required'. |
| Login.HandleChangeClearsOnlyThatInput | src/Login/Login.jsx:15-27 | An edit sets only that input and clears only its set error. The general alert and the other input are kept. |
| Login.DemoCredentials | src/Login/Login.jsx:83-89 | The table has entries exactly for 'user' and 'admin'. |
| Login.DemoCredentialsAreValid | src/Login/Login.jsx:83-89 | Both demo logins fill a form that passes validation. |
| Login.ResponseMessage | src/Login/Login.jsx:64-75 | The general message is the success text, else the server's non-empty error, else 'Invalid credentials'. |
| Login.AlertStyles | src/Login/Login.jsx:107 | The success text gets the success style. 'Invalid credentials' and 'Network error' get the error style. |
| Login.ResponseAlert | src/Login/Login.jsx:106-107 | A successful login shows the success style, and a failure with no server text shows the error style. |
| Checkout.HandleInputChange | src/pages/Checkout.jsx:38-44 | A checkbox stores `checked`, any other input its `value`. The named field is added if new, and every other field is kept. |
| Checkout.HandleInputChangeKeepsWellTyped | src/pages/Checkout.jsx:15-44 | The initial form holds text everywhere but `saveInfo`. Edits through the page's inputs keep it so. |
| Checkout.ValidateForm | src/pages/Checkout.jsx:46-62 | A message is always one of the four texts. A throw happens only when paying by card with a ticked checkbox value in `cardNumber`. |
| Checkout.ValidateFormMeaning | src/pages/Checkout.jsx:46-62 | The first failing group decides the message: customer, then address, then card (card only for 'card'), then the 16-character number. The result is null iff every check passes. |
| Checkout.WellTypedNeverThrows | src/pages/Checkout.jsx:57 | On a form built by the page's inputs, validation never throws. |
| Checkout.InitialFormNeedsCustomer | src/pages/Checkout.jsx:15-31 | The untouched form fails on the first group. |
| Checkout.VerdictReadsInspectedFields | src/pages/Checkout.jsx:46-62 | The verdict depends only on the fields the chain names. When not paying by card, it does not depend on the card fields. |
| Checkout.UncheckedFields | src/pages/Checkout.jsx:46-62 | `state`, `country`, `saveInfo` or any other name never changes the verdict. |
| Checkout.CashIgnoresCard | src/pages/Checkout.jsx:53-60 | When not paying by card, no card field is inspected. |
| Checkout.SubmitGate | src/pages/Checkout.jsx:141-160 | A message stops submission. A null result goes on to payment then order for card, and to the order alone otherwise. |
| Checkout.GateStopsInvalidForms | src/pages/Checkout.jsx:144-160 | Payment or an order is attempted only when every check passes. Payment is attempted only with a 16-character card number. |
| Pricing.RoundRatio | src/pages/ProductDetail.jsx:78 | `Math.round(a/d)` for d > 0: the integer q with q − 1/2 ≤ a/d < q + 1/2. |
| Pricing.DiscountIsPercentage | src/pages/ProductDetail.jsx:76-79 | For a nonnegative price the discount lies in 0..100. It is 100 exactly when price ≤ mrp/200. |
| Pricing.DiscountBadgeShown | src/layout/SearchResult.jsx:27-30 | The discount is above 0 exactly when mrp > price and the saving is at least half a percent of mrp. |
| Pricing.MockProductDiscount | src/pages/ProductDetail.jsx:25-26 | 29.99 against 39.99 is 25%. |
| ProductDetail.ProductImagesCases | src/pages/ProductDetail.jsx:60-72 | Images are the state product's `image_url`, else its `images` array, else the placeholder. Without a state product they are the built-in three images. |
| ProductDetail.MockProductSaving | src/pages/ProductDetail.jsx:130 | The built-in product shows a 25% discount. |
| ProductDetail.GuardBlocksBothButtons | src/pages/ProductDetail.jsx:81-112 | With sizes on offer and none chosen, or colours and none chosen, neither button touches the cart or leaves the page. |
| ProductDetail.ButtonsAddTheChosenItem | src/pages/ProductDetail.jsx:88-127 | Both buttons add the same item: the chosen size or 'One Size', the chosen colour or 'Standard', and the chosen quantity. Buy now then goes to checkout. |
| ProductDetail.NonArrayOptionsNeedNoChoice | src/pages/ProductDetail.jsx:88-91 | A product whose sizes and colours are not arrays needs no choice and gets 'One Size' and 'Standard'. |
| ProductDetail.StepperButtons | src/pages/ProductDetail.jsx:318-338 | Minus lowers the quantity exactly when it is above 1; plus adds 1. From 1 or more, neither goes below 1. |
| ProductDetail.TypedQuantityExamples | src/pages/ProductDetail.jsx:328 | '' and '0' give 1, and '-3' gives −3 (not clamped). |
| JsText.Trim | src/Login/Register.jsx:42 | `trim` drops exactly the leading and trailing whitespace. |
| JsText.BlankIffAllSpace | src/Login/Register.jsx:49 | The trimmed text is empty exactly when the text is all whitespace. |
| JsText.ParseIntOfDecimal | src/layout/Header.jsx:91-98 | `parseInt` reads back the decimal text of a natural number. |
| JsText.ParseIntOfNegative | src/pages/ProductDetail.jsx:328 | `parseInt` of '-' followed by digits is the negated value. |
| JsText.OrOne | src/context/CartContext.jsx:31 | The `or 1` fallback is never 0. It is 1 for a missing value or 0, and the value otherwise. |
| JsText.RemoveSpaces | src/pages/Checkout.jsx:57 | `replace(/\s/g, '')` leaves no whitespace, never lengthens the text, and leaves whitespace-free text unchanged. |
| JsText.RemoveSpacesOfChar | src/pages/Checkout.jsx:57 | A single character is removed exactly when it is whitespace. |
| JsText.RemoveSpacesConcat | src/pages/Checkout.jsx:57 | Removing whitespace from a + b is removing it from a and from b and joining the results, so every other character is kept, in order. |
| JsText.RemoveSpacesLength | src/pages/Checkout.jsx:57 | The result is shorter than the text by exactly its number of whitespace characters. |
| JsText.TrimOfTrimmed | src/layout/Header.jsx:34 | Text with no whitespace at either end is its own `trim`. |
| JsText.LowerOfLower | src/layout/Header.jsx:34 | Text without capitals is its own `toLowerCase`. |
| JsText.NatToDecimal | src/layout/Header.jsx:157-158 | `String(n)` is non-empty decimal digits denoting n, without a leading zero. |
| CartSidebar.ControlsKeepQuantitiesPositive | src/components/CartSidebar.jsx:113-136 | Minus, plus, typing and remove never take a line below 1 when every line starts at 1 or more. |
| CartSidebar.GuardOnZeroAndNegative | src/components/CartSidebar.jsx:21-25 | A 0 reaching the guard removes every line with the id. A negative request is ignored, and a positive one updates. |
| CartSidebar.PlusSetsEveryVariant | src/components/CartSidebar.jsx:125-131 | For a line at 0 or more, plus sets every line sharing its id to that line's quantity + 1. |
| CartSidebar.TypedKeepsPositive | src/components/CartSidebar.jsx:118-124 | Text that reads as no number or as 0 sets the product to 1. A typed negative number leaves the cart unchanged, and a positive one is set as typed. Every line stays at 1 or more. |
| CartSidebar.RemoveKeepsPositive | src/components/CartSidebar.jsx:136 | After remove, every remaining line stays at 1 or more. |
| CartSidebar.CheckoutKeepsCart | src/components/CartSidebar.jsx:27-54 | Checkout (and quick checkout, which calls it) hands over the current items and their total, closes the sidebar, and leaves the cart's contents and totals unchanged. |
| SearchResult.ProductListFallback | src/layout/SearchResult.jsx:14-25 | The list is `products` when present (even empty), else `results`, else empty. Missing results show the notice. |
| SearchResult.CountNounPlural | src/layout/SearchResult.jsx:95 | The label says 'product' exactly for a count of 1, and 'products' otherwise. |
| SearchResult.TitleTruncation | src/layout/SearchResult.jsx:130-133 | A name over 50 characters shows its first 50 plus '...' (53 in all). Shorter names show unchanged. Truncation is idempotent. |
| SearchResult.BadgeWhenDiscounted | src/layout/SearchResult.jsx:101-115 | The badge shows exactly when mrp > price by at least half a percent of mrp. |
| SearchResult.BuyNowAddsThenToggles | src/layout/SearchResult.jsx:49-54 | Buy now adds like the add button, then flips the sidebar. A new product becomes a new last line of quantity 1. |

## Left out

- Network and browser I/O are not modelled: `fetch` to the search, payment, order, register and login endpoints, the voice upload/poll loop, MediaRecorder, FileReader, `localStorage`, `navigate` and `setTimeout`. The model stops where a request would be sent (`Checkout.SubmitGate`, `Header.SubmitParams`) or returns the step taken (`ProductDetail.Press`).
- The stale-response race between overlapping searches is not modelled; it is about asynchronous ordering.
- Floating-point money is not modelled: the checkout's 10% tax, the `toFixed(2)` text and the cents conversion. Prices are exact integer cents, so IEEE rounding at exact halves of `Math.round` on doubles is not reproduced.
- `parseInt` is modelled in base 10 on ASCII input. Precision loss above 2^53 and `-0` are not reproduced. The browser's handling of a number input's value is not modelled.
- Text is ASCII: `\s`, `\S`, `\w`, `trim` and `toLowerCase` follow their ASCII behaviour, with lengths in characters rather than UTF-16 units. The one exception is that the password lookahead's `.` stops at the four JavaScript line terminators.
- Cart lines carry only the fields the reducer reads (id, name, price, size, colour and quantity). The other fields the product page spreads into the item (features, sizes, colours, images and the rest) are not carried.
- The register and login submit handlers are left out beyond the validation and alert text they use, because their remaining work is the request, storage and redirect.
- The rendered JSX and styling are not modelled. The only exceptions are the parts whose text or visibility the logic decides.
- The browser's value sanitising for `type="email"` inputs is not modelled: both validators take the field's text as given.
- A search-result product goes into the cart with no quantity, size or colour (`SearchResult.PayloadOf`), because the result products do not carry them. If the API product carried `quantity`, `selectedSize` or `selectedColor`, the reducer would use them, and the model does not cover that case.
- Login.ResponseAlert: says nothing about a failed login whose server error text itself contains 'successful'. Such a message would get the success style, and the code does not rule it out.

## Notes on the code as written

- The 'First name must be less than 50 characters' message is only given above 50 characters, so a name of exactly 50 characters passes (`Register.FirstNameErrorMeaning`).
- The password rule `(?=.*[a-z])(?=.*[A-Z])(?=.*\d)` needs the three classes on one line, reading from some offset (`Register.MixedOnOneLine` covers text without line breaks). The strength meter uses three separate tests, so it can rate a multi-line password Strong that the form rejects.
- Login does not trim the e-mail, while registration does (`Login.BlankEmailIsInvalid`). Both e-mail fields are `type="email"` inputs (src/Login/Login.jsx:119, src/Login/Register.jsx:230). A browser strips leading and trailing whitespace from such a field's value, so on the page the difference shows only when the value comes from elsewhere.
- A price range 'N-M' is kept as written even when N > M (`Header.RangeRuleAt`, `HeaderExamples.RangeKeptAsWritten`).
- When a navigation-state product has neither `image_url` nor an `images` array, the page shows the placeholder, not the built-in images (`ProductDetail.ProductImagesCases`).
- The product page does not clamp a typed negative quantity. It reaches the cart through `addToCart` (`ProductDetail.TypedQuantityExamples`). The cart sidebar ignores negative requests.
- Removing and updating work by id, so every size and colour of a product is affected at once (`Cart.RemoveDropsEveryVariant`, `CartSidebar.PlusSetsEveryVariant`).
- In checkout, a `cardNumber` holding a boolean would make `.replace` throw. No input of the page can put one there (`Checkout.WellTypedNeverThrows`).
