# UrbanCanvas storefront rules, in Dafny

UrbanCanvas is a React storefront. Underneath its animation and layout sit a
few small, deterministic rules, and this project models them and proves what
they promise:

- **The product grid's query** (`ProductGridWrapper`, module `ProductQuery`).
  The grid works in stages:
  - it drops malformed records;
  - it keeps the titles that contain the search text, ignoring case;
  - it keeps an exact, case-insensitive category match;
  - it reports the count to the shop store;
  - it sorts a copy by price or popularity;
  - it shows a window: the first `limit` items, or page `p` of 9, or everything.

  The component's state and the two store counters form the class `ProductGrid`. The stable sort that
  `Array.prototype.sort` performs is modelled as an insertion sort on a real key
  (module `StableSort`). `filter` and `slice` are modelled in module `Arrays`.
- **Both WhatsApp services.**
  - The `f/` service (`FWhatsApp`) keeps the shop's number stripped to
    digits. Its `formatPhoneNumber` replaces a leading `0` by `880` and then
    prefixes any ten-digit result.
  - The `frontend/` service (`FrontendWhatsApp`) keeps the number
    verbatim. It cleans the number to digits and `+`, applies a three-rule
    if/else-if chain, and then removes the first `+` only.

  Both services have the same `isValidPhoneNumber` (`Shop.IsValidPhoneNumber`).
  Both build an order message. Both also build a `wa.me` deep link; the
  `frontend/` one is modelled, and the `f/` one is left out with the `f/`
  send methods.
- **The checkout page** (`Checkout`):
  - the payment-method table and the payment fields each method adds;
  - the summary panel, which shows 0 for an empty cart;
  - the order message, which `formatOrderMessage` builds with `+=` in a loop;
  - `handleCheckoutSubmit`. Its effects are returned as a trace, and the lemmas read that trace.
- **The product page** (`SingleProduct`):
  - the "similar products" strip;
  - the cart line that "Add to Cart" builds;
  - the form reset when the product changes.
- **The header's cart badge** (`Header`, from `f/`).

`Shop` holds the shared records and the order totals:
- shipping is a flat 5;
- taxes are a fifth of the subtotal;
- the total is their sum with the subtotal.

`Text` models the string primitives the code relies on:
- `replace(/\D/g, '')`;
- ASCII `toLowerCase`;
- `includes` and `join`.

It also defines `split`, which no source file calls. It is there only to state
that the `%0A`-joined product list can be cut back into its lines.

Money is `real`. A JavaScript `null`/`undefined` is `None`. Truthiness of an
optional string is `Truthy`.

The submitted checkout form (`Object.fromEntries(formData)`) is a record. It
holds one optional entry per input the storefront reads. Every other input is
kept by its name.

Effects are modelled as values: the POST, the toasts, the WhatsApp service,
`window.open`, the delayed navigation and store dispatches. `HandleCheckoutSubmit`
returns the effects in the order the handler performs them, and
`SubmitTrace` states that order once for all inputs.

Where the code and its description differ, the model follows the code:
- In the `f/` service, a leading-zero number with 8 digits is prefixed twice.
  The zero rule makes it ten digits long, and the ten-digit rule then fires as
  well (`FWhatsApp.InternationalNumber`).
- In the `frontend/` service, a ten-character `01…` number is not left alone.
  The first two rules do not apply to it, so the third puts `880` in front
  (`FrontendWhatsApp.ZeroOneTenCharactersPrefixed`).
- On the product page, the cart-line key as written lets two products collide.
  `SingleProduct.MakeCartLine`, and so "Add to Cart"
  (`SingleProduct.ProductPage.HandleAddToCart`), builds that key exactly as
  written. The corrected line with a separated key is
  `SingleProduct.MakeCartLineKeyed` (see Findings).

## Model

| member | source | states |
|---|---|---|
| ProductQuery.IsValidProduct | f/src/components/ProductGridWrapper.tsx:27-32 | a record is valid when it is not null, its id is truthy, and its title and category are not null |
| ProductQuery.SafeToString | f/src/components/ProductGridWrapper.tsx:21-24 | null or undefined reads as the empty string, anything else as its lower-cased text |
| ProductQuery.FilteredIsOneFilter | f/src/components/ProductGridWrapper.tsx:72-97 | the validity, search and category stages together keep exactly the records that are valid, whose lower-cased title contains the lower-cased query, and, when a category is given, whose lower-cased category equals it, in catalogue order |
| ProductQuery.EmptyQueryKeepsAll | f/src/components/ProductGridWrapper.tsx:21-24 | an empty query keeps every valid product |
| ProductQuery.SearchIgnoresCase | f/src/components/ProductGridWrapper.tsx:80-85 | a query and its lower-cased form select the same products |
| ProductQuery.CategoryIsExactMatch | f/src/components/ProductGridWrapper.tsx:90-97 | the category test is whole-string equality after lower-casing, so "Men" does not select a "Women" product |
| ProductQuery.SortProducts | f/src/components/ProductGridWrapper.tsx:105-120 | `price-asc` sorts by `price \|\| 0`, `price-desc` by its negation, `popularity` by the negation of `popularity \|\| 0`, and any other criterion keeps the list |
| ProductQuery.SortProductsOrders | f/src/components/ProductGridWrapper.tsx:105-120 | every criterion gives a permutation: `price-asc` is non-decreasing in `price \|\| 0`; `price-desc` is non-increasing in price; `popularity` is non-increasing in `popularity \|\| 0`; an unknown criterion keeps the order |
| ProductQuery.PriceSortIsStable | f/src/components/ProductGridWrapper.tsx:105-114 | products with equal prices keep their catalogue order under either price sort |
| ProductQuery.DescendingIsReversedAscending | f/src/components/ProductGridWrapper.tsx:105-114 | when no two products share a price, `price-desc` is exactly `price-asc` reversed |
| ProductQuery.WindowByLimit | f/src/components/ProductGridWrapper.tsx:125-128 | a positive `limit` shows the first `min(limit, n)` sorted items |
| ProductQuery.WindowByNegativeLimit | f/src/components/ProductGridWrapper.tsx:125-126 | a negative `limit` drops that many items from the end, as `slice` does |
| ProductQuery.HomePreviewShowsFirstFour | f/src/components/HomeCollectionSection.tsx:168 | the `limit={4}` preview shows exactly the first four sorted products once there are four |
| ProductQuery.WindowByPage | f/src/components/ProductGridWrapper.tsx:129-134 | without a limit, page `p >= 1` shows the sorted items at `[(p-1)*9, (p-1)*9+9)` clipped to the list: at most nine, in order |
| ProductQuery.SecondPage | f/src/components/ProductGridWrapper.tsx:129-134 | page 2 is positions 9 to 17 |
| ProductQuery.WindowAll | f/src/components/ProductGridWrapper.tsx:135-138 | without a limit and with a falsy page, everything is shown |
| ProductQuery.Window | f/src/components/ProductGridWrapper.tsx:122-139 | whatever the window, it holds only items of the sorted list |
| ProductQuery.SearchProducts | f/src/components/ProductGridWrapper.tsx:72-139 | the reported total is the filtered count, taken before sorting and windowing; every product shown is a selected one; the products shown are the window of the sorted filtered list |
| ProductQuery.FilterStages | f/src/components/ProductGridWrapper.tsx:72-97 | the stage-by-stage reassignment of `searchedProducts` yields the filtered list |
| ProductQuery.SortStage | f/src/components/ProductGridWrapper.tsx:105-120 | sorting the copy yields the specified sort |
| ProductQuery.WindowStage | f/src/components/ProductGridWrapper.tsx:122-139 | the limit/page/all branches yield the specified window |
| ProductQuery.ShownAreSelected | f/src/components/ProductGridWrapper.tsx:72-139 | every product in any window of the sorted list satisfies the selection predicate |
| ProductQuery.FetchErrorText | f/src/components/ProductGridWrapper.tsx:152-156 | the error text is the "not found" text exactly for a 404 and the "failed to load" text otherwise |
| ProductQuery.ProductGrid.constructor | f/src/components/ProductGridWrapper.tsx:51-55 | the grid starts with no products, loading, no error |
| ProductQuery.ProductGrid.GetSearchedProducts | f/src/components/ProductGridWrapper.tsx:57-161 | on success the grid holds the window, the store holds the filtered count and the window's length, and the total is dispatched exactly when it changed; on failure the grid is empty, the error text depends only on a 404 and the store is untouched; loading ends either way |
| StableSort.Sort | f/src/components/ProductGridWrapper.tsx:106-118 | the sorted copy is a permutation of the list |
| StableSort.SortSorts | f/src/components/ProductGridWrapper.tsx:106-118 | the sorted copy is non-decreasing in the comparator's key |
| StableSort.SortIsStable | f/src/components/ProductGridWrapper.tsx:106-118 | elements with equal keys keep their relative order |
| StableSort.SortedPermutationUnique | f/src/components/ProductGridWrapper.tsx:106-118 | with distinct keys, two sorted permutations of one list are equal |
| StableSort.SortNegatedIsReverse | f/src/components/ProductGridWrapper.tsx:105-114 | with distinct keys, sorting by the negated key is the reverse of sorting by the key |
| Arrays.FilterMembers | f/src/components/ProductGridWrapper.tsx:72 | `filter` keeps exactly the elements that pass the test |
| Arrays.FilterTwice | f/src/components/ProductGridWrapper.tsx:80-97 | filtering twice is filtering once by both tests |
| Arrays.Slice | f/src/components/ProductGridWrapper.tsx:126-132 | `slice` returns elements of the list and no more of them than the list has |
| Text.DigitsOf | f/src/services/whatsappService.ts:141 | `replace(/\D/g, '')` leaves only digits and never lengthens the string |
| Text.DigitsOfCountsDigits | f/src/services/whatsappService.ts:168-169 | the stripped string has as many characters as the input has digits |
| Text.LowerIdempotent | f/src/components/ProductGridWrapper.tsx:23 | lower-casing twice is lower-casing once |
| Text.ContainsIffOccurs | f/src/components/ProductGridWrapper.tsx:84 | `includes` holds exactly when the needle occurs at some position |
| Text.SplitJoin | f/src/services/whatsappService.ts:96-98 | splitting a join at its separator gives the parts back, when no part holds the separator's first character |
| Shop.OrderTotals | f/src/services/whatsappService.ts:100-102 | shipping is 5, taxes are a fifth of the subtotal, and the total is six fifths of the subtotal plus 5 |
| Shop.OrderTotalsOfHundred | frontend/src/pages/Checkout.tsx:29-31 | a subtotal of 100 gives taxes of 20 and a total of 125 |
| Shop.IsValidPhoneNumber | f/src/services/whatsappService.ts:167-170 | a number is valid exactly when it holds between 10 and 15 digits, whatever else it holds (the same rule is at frontend/src/services/whatsappService.ts:142-145) |
| FWhatsApp.InternationalNumber | f/src/services/whatsappService.ts:139-154 | the formatted number holds only digits |
| FWhatsApp.DefaultNumberIsInternational | f/src/services/whatsappService.ts:18 | the configured `01887569963` becomes `8801887569963` |
| FWhatsApp.LocalElevenDigits | f/src/services/whatsappService.ts:144-146 | an eleven-digit number starting with `0` has that zero replaced by `880` |
| FWhatsApp.TenDigitsWithZeroPrefixedOnce | f/src/services/whatsappService.ts:144-151 | a ten-digit number starting with `0` becomes twelve digits and is not prefixed twice |
| FWhatsApp.TenDigitsGetCountryCode | f/src/services/whatsappService.ts:149-151 | a ten-digit number without a leading zero gets `880` in front |
| FWhatsApp.SeparatorIgnored | f/src/services/whatsappService.ts:141 | inserting a non-digit anywhere in the input leaves the formatted number unchanged |
| FWhatsApp.SameDigitsSameNumber | f/src/services/whatsappService.ts:141 | the formatted number depends only on the digits of the input |
| FWhatsApp.ProductList | f/src/services/whatsappService.ts:96-98 | the product list is the rendered cart lines joined with `%0A` |
| FWhatsApp.RenderAll | f/src/services/whatsappService.ts:96-97 | one rendered entry per product, in cart order |
| FWhatsApp.ProductListOnePerLine | f/src/services/whatsappService.ts:96-98 | splitting the product list at `%0A` gives back one rendered line per product, in cart order |
| FWhatsApp.FormatOrderMessage | f/src/services/whatsappService.ts:93-137 | the message carries the order's date, status and payment type, the `%0A`-joined product list, shipping 5, taxes of a fifth and total subtotal + 5 + subtotal/5 |
| FWhatsApp.WhatsAppService.constructor | f/src/services/whatsappService.ts:18 | the service starts with the number `01887569963` |
| FWhatsApp.WhatsAppService.SetPhoneNumber | f/src/services/whatsappService.ts:157-159 | the stored number is the argument stripped to its digits |
| FWhatsApp.WhatsAppService.GetPhoneNumber | f/src/services/whatsappService.ts:162-164 | returns exactly the stored number |
| FWhatsApp.WhatsAppService.FormatPhoneNumber | f/src/services/whatsappService.ts:139-154 | the step-by-step rewrite of `cleanNumber` yields the international number, which holds only digits |
| FrontendWhatsApp.CleanedNumber | frontend/src/services/whatsappService.ts:110 | cleaning keeps only digits and `+` and never lengthens the string |
| FrontendWhatsApp.CleanedKeepsDigits | frontend/src/services/whatsappService.ts:110 | cleaning keeps every digit, in order |
| FrontendWhatsApp.RemoveFirstPlus | frontend/src/services/whatsappService.ts:126 | a string without `+` is unchanged, and one with a `+` loses exactly one character |
| FrontendWhatsApp.RemoveFirstPlusAt | frontend/src/services/whatsappService.ts:126 | the first `+` is the one removed |
| FrontendWhatsApp.NormalisedNumber | frontend/src/services/whatsappService.ts:108-129 | the normalised number holds only digits and `+` |
| FrontendWhatsApp.WithCountryCode | frontend/src/services/whatsappService.ts:113-123 | the first rule that applies wins: an eleven-character `01…` number, or a `0…` number that is not `01…`, has its zero replaced by `880`; failing both, a ten-character number not starting with `+` gets `880` in front; otherwise the string is kept |
| FrontendWhatsApp.CountryCodeAtMostOnce | frontend/src/services/whatsappService.ts:113-123 | the rules prepend `880` at most once: the result is the cleaned string, or it with its first character replaced by `880`, or it with `880` in front |
| FrontendWhatsApp.LocalMobileNumber | frontend/src/services/whatsappService.ts:113-115 | an eleven-digit `01…` number becomes `880` followed by its last ten digits |
| FrontendWhatsApp.ZeroTenCharactersReplacedNotPrefixed | frontend/src/services/whatsappService.ts:117-123 | a ten-character `0…` number that is not `01…` has its zero replaced and is not also prefixed |
| FrontendWhatsApp.ZeroOneTenCharactersPrefixed | frontend/src/services/whatsappService.ts:113-123 | a ten-character `01…` number gets `880` in front of the whole string |
| FrontendWhatsApp.ZeroOneOtherLengthUnchanged | frontend/src/services/whatsappService.ts:113-123 | a `01…` number of any length other than 10 or 11 is left as it is |
| FrontendWhatsApp.OnlyFirstPlusRemoved | frontend/src/services/whatsappService.ts:126 | only the first `+` is removed, and a second one survives |
| FrontendWhatsApp.InternationalWithPlus | frontend/src/services/whatsappService.ts:108-129 | a `+` followed by digits, with any separators, normalises to exactly its digits |
| FrontendWhatsApp.DefaultNumberNormalised | frontend/src/services/whatsappService.ts:18 | the configured `+880 1843-426422` normalises to `8801843426422` |
| FrontendWhatsApp.ItemEntries | frontend/src/services/whatsappService.ts:63-65 | one entry per product, numbered from the first number on, each with its title, colour, size, price, quantity and amount price × quantity |
| FrontendWhatsApp.UserEmail | frontend/src/services/whatsappService.ts:68 | the order's user email when truthy, else the stored email when truthy, else "Not provided" |
| FrontendWhatsApp.BikashNumberOf | frontend/src/services/whatsappService.ts:89 | the bKash number is listed exactly for a `bikash` payment that gave one, and it is the submitted number |
| FrontendWhatsApp.CardHolderOf | frontend/src/services/whatsappService.ts:90 | the card holder is listed exactly for a `credit-card` payment that gave one, and it is the submitted name |
| FrontendWhatsApp.FormatOrderMessage | frontend/src/services/whatsappService.ts:54-106 | items are numbered from 1, one per product, each priced at price × quantity; shipping is 5, taxes are a fifth, the total is subtotal + 5 + subtotal/5; the bKash and card-holder lines appear exactly under their conditions; the name, phone, shipping address (address, city, region, country, postal code) and payment method are the submitted values, and the email is the `UserEmail` choice |
| FrontendWhatsApp.WhatsAppService.constructor | frontend/src/services/whatsappService.ts:18 | the service starts with the number `+880 1843-426422` |
| FrontendWhatsApp.WhatsAppService.SetPhoneNumber | frontend/src/services/whatsappService.ts:132-134 | the number is stored verbatim |
| FrontendWhatsApp.WhatsAppService.GetPhoneNumber | frontend/src/services/whatsappService.ts:137-139 | returns exactly the stored number |
| FrontendWhatsApp.WhatsAppService.FormatPhoneNumber | frontend/src/services/whatsappService.ts:108-129 | the if/else-if chain on `cleanNumber`, then the removal of the first `+`, yields the normalised number |
| FrontendWhatsApp.WhatsAppService.SendManualMessage | frontend/src/services/whatsappService.ts:38-52 | the link is `https://wa.me/` + the formatted number + `?text=` + the encoded message, built exactly when encoding did not throw; success, and the "opened" toast rather than the "failed" one, exactly when neither encoding nor opening the window threw |
| FrontendWhatsApp.RecipientOfLink | frontend/src/services/whatsappService.ts:40-42 | the recipient can be read back from the link: it is the text between `https://wa.me/` and the first `?` |
| Checkout.PaymentMethodIds | frontend/src/pages/Checkout.tsx:12-18 | there are five distinct payment ids in display order, the first `cash-on-delivery` |
| Checkout.PaymentFieldNames | frontend/src/pages/Checkout.tsx:155-279 | the card inputs appear exactly for `credit-card`, the bKash number exactly for `bikash`, and no input for any other method |
| Checkout.CheckoutPage.constructor | frontend/src/pages/Checkout.tsx:25 | the selection starts on the first payment method |
| Checkout.CheckoutPage.SelectPayment | frontend/src/pages/Checkout.tsx:475 | the selection becomes the chosen radio button's value |
| Checkout.SummaryTotals | frontend/src/pages/Checkout.tsx:557-577 | shipping, taxes and total are 0 when the subtotal is 0, and otherwise 5, a fifth, and subtotal + 5 + subtotal/5 |
| Checkout.SummaryAgreesWithMessage | frontend/src/pages/Checkout.tsx:29-31 | the summary agrees with the message totals exactly when the subtotal is not 0 |
| Checkout.ItemLines | frontend/src/pages/Checkout.tsx:43-47 | three lines per cart line |
| Checkout.ItemLinesAt | frontend/src/pages/Checkout.tsx:43-47 | the `k`-th cart line is item number `k + 1` with its colour and size, priced at price × quantity |
| Checkout.PaymentPartLines | frontend/src/pages/Checkout.tsx:50-57 | the payment section opens with the payment type and ends with a blank line; the bKash line appears exactly for a `bikash` order that gave a number, and the card-holder line exactly for a `credit-card` order that gave a name; each carries the submitted value |
| Checkout.SummaryPartLines | frontend/src/pages/Checkout.tsx:60-64 | the summary reports the subtotal, shipping 5, taxes whose fivefold is the subtotal, and total subtotal + 5 + subtotal/5 |
| Checkout.OrderMessage | frontend/src/pages/Checkout.tsx:27-71 | the message is the customer section, three lines per cart line, the payment section, the summary section, then the date and order-id lines |
| Checkout.FormatOrderMessage | frontend/src/pages/Checkout.tsx:27-71 | appending line by line yields the whole message, section by section |
| Checkout.AppendItems | frontend/src/pages/Checkout.tsx:43-47 | the `forEach` appends three lines per cart line, in cart order |
| Checkout.MessageListsEveryItem | frontend/src/pages/Checkout.tsx:36-47 | every cart line appears in the message as its three lines, numbered by its position, right after the customer section |
| Checkout.ItemsFollowCustomer | frontend/src/pages/Checkout.tsx:33-42 | the item section starts right after the six lines of the customer section |
| Checkout.MessageTotal | frontend/src/pages/Checkout.tsx:29-31 | the message's total line reports subtotal + 5 + subtotal/5, which is 125 for a subtotal of 100 |
| Checkout.AssembleOrder | frontend/src/pages/Checkout.tsx:78-106 | the order carries the form data, cart and subtotal, stamped "Processing"; a user `{email, id}` is attached exactly when the stored user has an email, and the order is then ISO-stamped, otherwise locale-dated |
| Checkout.PaymentToast | frontend/src/pages/Checkout.tsx:121-129 | the first success toast is the cash-on-delivery one exactly for `cash-on-delivery`, the bKash one exactly for `bikash`, and the generic one for anything else |
| Checkout.ConfirmationTrace | frontend/src/pages/Checkout.tsx:112-151 | after a 201: hand the order to the WhatsApp service, toast by payment type, then either toast and open the shop's link with the message, or toast the manual-share text; then navigate after 3 s; a throw in the service call or in building or opening the link ends the steps with the error toast |
| Checkout.SubmitTrace | frontend/src/pages/Checkout.tsx:84-152 | nothing for an invalid form, nor when the stored user does not parse (the parse throws before the `try`); otherwise the POST of the assembled order, followed by the confirmation steps for a 201 and by the error toast for any other status or a failed request |
| Checkout.ConfirmOrder | frontend/src/pages/Checkout.tsx:112-151 | performing the steps after a 201 one by one, leaving for the `catch` where a step throws, yields the confirmation trace |
| Checkout.HandleCheckoutSubmit | frontend/src/pages/Checkout.tsx:73-153 | the handler performs exactly the submit trace |
| Checkout.SubmitTraceCases | frontend/src/pages/Checkout.tsx:84-152 | for a valid form, the trace is empty when the stored user does not parse, and otherwise one of five, spelled out by the answer, the WhatsApp result and the step that throws, if any |
| Checkout.SubmitPostsOnce | frontend/src/pages/Checkout.tsx:84-110 | the handler does nothing exactly when the form is invalid or the stored user does not parse; otherwise it posts the assembled order first and never again |
| Checkout.SubmitNavigatesIffCreated | frontend/src/pages/Checkout.tsx:108-151 | the page navigates exactly when the form was valid, the stored user parsed, the answer was 201 and no later step threw, and the navigation is the last step |
| Checkout.SubmitErrorIffFailed | frontend/src/pages/Checkout.tsx:108-152 | the error toast appears exactly when the order was posted and got another status, the request threw, or a step after the 201 threw; it is then the last step, and after a failed POST the only one |
| Checkout.SubmitSendsCreatedOrder | frontend/src/pages/Checkout.tsx:114-129 | a created order is handed to the WhatsApp service, and acknowledged by the toast for its payment type exactly when the service call did not throw |
| Checkout.SubmitOpensLinkIffSent | frontend/src/pages/Checkout.tsx:131-140 | the shop's link is opened exactly when the order was posted and created, the service reported success and nothing threw, and it carries the message of the posted order |
| SingleProduct.SimilarProducts | frontend/src/pages/SingleProduct.tsx:93-100 | empty without a product or a catalogue; at most three; each from the catalogue, in the current product's category, with another id |
| SingleProduct.SimilarAreFirstMatches | frontend/src/pages/SingleProduct.tsx:97-99 | the strip is the first similar products in catalogue order, and a similar product is left out only when three are already shown |
| SingleProduct.CartLineIdAsWritten | frontend/src/pages/SingleProduct.tsx:155 | the key as written is the product id, the size and the colour concatenated with nothing between them |
| SingleProduct.CartLineIdCollides | frontend/src/pages/SingleProduct.tsx:155 | the key as written gives product `1` in size `2xl` and product `12` in size `xl`, both black, the same key |
| SingleProduct.VariantsOfOneProductDistinct | frontend/src/pages/SingleProduct.tsx:155 | for one product, the key as written does tell the offered variants apart |
| SingleProduct.SizesPrefixFree | frontend/src/pages/SingleProduct.tsx:260-267 | no offered size is a proper prefix of another |
| SingleProduct.CartLineKeyInjective | frontend/src/pages/SingleProduct.tsx:155 | the separated key is equal for two lines exactly when they agree on product, size and colour |
| SingleProduct.OptionsHaveNoSeparator | frontend/src/pages/SingleProduct.tsx:258-283 | no offered size or colour contains the separator |
| SingleProduct.MakeCartLine | frontend/src/pages/SingleProduct.tsx:154-165 | the line copies the product's image, title, category, price, popularity and stock, with the picked quantity, size and colour, and its id is the key as written, `id + size + color` |
| SingleProduct.AddedLinesCollide | frontend/src/pages/SingleProduct.tsx:155 | lines built as written for product `1` in `2xl` and product `12` in `xl`, both black, share an id |
| SingleProduct.MakeCartLineKeyed | frontend/src/pages/SingleProduct.tsx:154-165 | the corrected line differs from the line as written only in its id, which is the separated key |
| SingleProduct.KeyedLinesIdentifyVariant | frontend/src/pages/SingleProduct.tsx:155 | with the offered sizes and colours, two corrected lines share an id exactly when they are for the same product id, size and colour |
| SingleProduct.ProductPage.constructor | frontend/src/pages/SingleProduct.tsx:43-51 | the page starts loading with no product, size `xs`, colour `black` and quantity 1 |
| SingleProduct.ProductPage.ChangeProduct | frontend/src/pages/SingleProduct.tsx:60-90 | a product change resets quantity to 1, size to `xs` and colour to `black`; a successful load shows the product and catalogue, a failed one sets the error and keeps what was shown |
| SingleProduct.ProductPage.SetSize | frontend/src/pages/SingleProduct.tsx:269 | only the size changes: the product, catalogue, other choices, loading flag and error stay |
| SingleProduct.ProductPage.SetColor | frontend/src/pages/SingleProduct.tsx:282 | only the colour changes: the product, catalogue, other choices, loading flag and error stay |
| SingleProduct.ProductPage.SetQuantity | frontend/src/pages/SingleProduct.tsx:291 | only the quantity changes: the product, catalogue, other choices, loading flag and error stay |
| SingleProduct.ProductPage.HandleAddToCart | frontend/src/pages/SingleProduct.tsx:150-166 | nothing is added without a product; otherwise the cart line for the picked variant, under the key as written |
| Header.ReduceQuantities | f/src/components/Header.tsx:24-27 | the `reduce` is a left fold that adds each line's quantity to the running total, in cart order |
| Header.ReduceIsSum | f/src/components/Header.tsx:24-27 | the `reduce` fold adds the sum of the quantities to its starting total |
| Header.TotalQuantity | f/src/components/Header.tsx:24-27 | a missing cart counts 0, and otherwise the total is the sum of the quantities |
| Header.TotalQuantityAdditive | f/src/components/Header.tsx:24-27 | adding a line with quantity `q` raises the total by exactly `q` |
| Header.TotalQuantityOfConcat | f/src/components/Header.tsx:24-27 | the totals of two carts put together add up |
| Header.Badge | f/src/components/Header.tsx:145-152 | the badge is shown exactly when the total is positive, and it shows that total |
| Header.TotalAtLeastLineCount | f/src/components/Header.tsx:24-27 | with at least one item per line, the total is at least the number of lines |
| Header.BadgeShownIffCartNotEmpty | f/src/components/Header.tsx:145-152 | with positive quantities, the badge shows exactly when the cart has a line; a missing cart never shows one |

## Left out

- GSAP animation, the custom cursor, scroll effects, markup and styling: nothing in them decides a value.
- I/O is replaced by parameters or returned effects:
  - `customFetch` and `fetch` answers are parameters (`FetchResult`, `LoadOutcome`, `PostOutcome`);
  - toasts, `window.open`, `setTimeout` navigation and store dispatches are returned values or class fields.
- The clock is left out. `new Date()`, `toISOString`, `toLocaleDateString`, `toLocaleString` and the `Date.now()` order ids appear only as which stamp was used (`OrderDate`) or as a message line with no value.
- `toFixed(2)` rounding and the decimal rendering of numbers are not modelled: money is an exact `real`.
- `encodeURIComponent` is a function parameter, treated as opaque.
- The wording, emoji and whitespace of the message templates are not modelled. The messages are modelled by what each line reports.
- The frontend service reads the stored user's email with its own `JSON.parse`, inside `sendOrderToWhatsApp`. `FrontendWhatsApp.FormatOrderMessage` takes that email as already parsed. A malformed entry makes the service throw, which the checkout model covers as the service call throwing.
- FWhatsApp.FormatOrderMessage: the customer and address lines of the `f/` message are not modelled (name, `emailAddress`, phone, `company`, address, `apartment`, city, region, country, postal code). Like the rest of that template, they are text around the form's values. The model keeps the date, status, product list, totals and payment type.
- `toLowerCase` is modelled for ASCII letters only; Unicode case mapping is left out.
- Non-integer, `NaN` or non-numeric `page`, `limit` and quantities are not modelled. `parseInt` of the quantity input is left out, and the quantity is an `int`. Prices, popularity and stock, which the source declares `number`, are `real`.
- `(a.price || 0) - (b.price || 0)` with `NaN` prices is not modelled. Sorting is modelled as a stable insertion sort on a copy held as a `seq`, which is what `[...list].sort(cmp)` returns. The in-place work inside `sort` is not modelled.
- The race between overlapping fetches in the grid is left out. So is the `isLoading` timeout of the product page: the page's state is modelled after the delay.
- `getInstance`, the singleton accessor of both services, is left out. Each service is one object.
- The `f/` service's `sendOrderToWhatsApp`, `sendViaWhatsAppWeb` and `sendManualMessage` are left out. They consist of popup and timer handling around `window.open`.
- The `frontend/` service's `sendOrderToWhatsApp` retry is left out. Only `sendManualMessage` is modelled, and it catches its own errors.
- The checkout page sees the WhatsApp service only through the boolean it reports (`whatsappSuccess`) and whether the call threw (`ServiceThrows`).
- The checkout handler's `catch` is reached from any throw after the POST. The model names the throws it can see: the awaited WhatsApp service, and `encodeURIComponent` or `window.open` for the link. `formatOrderMessage` and the toasts are taken not to throw.
- `checkCheckoutFormData` is not part of this model. Its verdict is the parameter `formValid`.
- The cart store (`addProductToTheCart`, `removeProductFromTheCart`) is not part of this model. The page hands the cart line to it, and that is where the model stops.
- The checkout form is a record of the inputs the storefront reads, each `None` when not submitted. `FormData` entries that are files are not modelled.

## Findings

| source | as written | input that shows it | evidently intended | confidence | as-written member | corrected member |
|---|---|---|---|---|---|---|
| frontend/src/pages/SingleProduct.tsx:155 | the cart-line id is `singleProduct.id + size + color`, with nothing between the parts | product `1` in size `2xl` and product `12` in size `xl`, both `black`: both ids are `12xlblack`, so the cart treats two different products as one line | the id identifies product, size and colour; the corrected line separates the parts with `-`, and its id is proved to identify product, size and colour | not executed | SingleProduct.CartLineIdCollides | SingleProduct.KeyedLinesIdentifyVariant |
