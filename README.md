# Storefront core in Dafny

This project models the logic of a client-side storefront for 3D-printed goods. It covers:

- the shopping cart: an ordered list of lines, which merges on insertion, supports removal and quantity updates by line id, and computes the two totals;
- the customisation page: the weight and price estimator, a three-step wizard, and the custom line it submits;
- the catalog queries over the constant product table: lookup by id, by category, and related products;
- the product listing filter and its controls;
- the cart page's order summary (shipping, 18 % tax, total), its line buttons and checkout;
- the lines the product page and the product tile submit, and the product page's quantity guard;
- the contact form's validation (trimmed required fields and the email pattern `\S+@\S+\.\S+`), its error clearing and its submission;
- the mock session: login, registration, logout and profile edits.

There is one module per source file. Two shared modules sit beside them:

- `Wrappers` holds `Option`.
- `Seqs` holds the sequence operations the source borrows from JavaScript arrays: `filter`, `findIndex` and `slice(0, n)`. Each carries its own contract, together with subsequence and prefix predicates.

State the source keeps in React state becomes a class, one field per state variable:

- `Cart`, `Wizard`, `ProductsPage`, `CheckoutPage`, `ProductDetailPage`, `ContactForm` and `Session`.
- Each handler becomes a method whose `ensures` gives the whole new state in terms of a specification function of the old one.
- For example, `AddToCart` yields `Added(old(items), item, now)`.

The properties the source promises are lemmas about those functions, together with class invariants:

- `Cart.Valid`: no two lines share an identity and every quantity is at least 1.
- `ProductsPage.Valid`: the list shown is the one the settings select.
- `Wizard.Valid`: the step index stays in 1..3.
- `Session.Valid`: authenticated exactly when there is a user.
- `ProductDetailPage.Valid`: the quantity is at least 1.

Units and arithmetic:

- Money, grams and millimetres are integers; the catalog's product dimensions are reals.
- `Math.round(x)` on the exact rational `n/d` is `floor((2n + d) / 2d)`. JavaScript rounds halves toward positive infinity.
- The density 0.00125 g/mm³ times infill/100 is exactly infill/80000.

## Model

| member | source | states |
|---|---|---|
| Seqs.Filter | src/contexts/CartContext.tsx:70 | `filter` keeps the elements that pass, in order: a subsequence, every kept element passes, and every passing element is kept |
| Seqs.FilterCount | src/contexts/CartContext.tsx:70 | each value occurs in the result as often as in the input if it passes, and not at all if it fails |
| Seqs.FilterCounts | src/contexts/CartContext.tsx:70 | the result is a sub-multiset of the input, and each passing element keeps its multiplicity while a failing one drops to 0 |
| Seqs.FindIndex | src/contexts/CartContext.tsx:54 | `findIndex` gives the first index whose element passes, and -1 exactly when none passes |
| Seqs.SliceTo | src/utils/mockData.tsx:233 | `slice(0, end)` is a prefix of length min(end, n), and for a negative end n + end clamped at 0 |
| Seqs.FilterTwice | src/pages/Products.tsx:20-30 | filtering by f and then by g is filtering once by f-and-g |
| Seqs.FilterKeepsAll | src/pages/Products.tsx:22-24 | a filter every element passes returns the sequence unchanged |
| Seqs.FilterAgrees | src/pages/Products.tsx:22-29 | filters by predicates that agree on every element give the same result |
| CartContext.NatToString | src/contexts/CartContext.tsx:64 | the decimal text of a timestamp is non-empty and all digits |
| CartContext.NatToStringRoundTrip | src/contexts/CartContext.tsx:64 | reading the decimal text back gives the timestamp |
| CartContext.NewLineId | src/contexts/CartContext.tsx:64 | a new line's id starts with the product id and a dash. What follows is non-empty, all digits, and reads back as the timestamp |
| CartContext.SameLine | src/contexts/CartContext.tsx:54 | the merge identity: same product, and both plain or both custom with equal options. CustomNeverMergesWithPlain and CustomAddsWithDifferentOptionsStaySeparate are its partners |
| CartContext.MergeIndex | src/contexts/CartContext.tsx:54 | the index is the first line with the same identity, and it is -1 exactly when no line matches |
| CartContext.Added | src/contexts/CartContext.tsx:51-68 | a merge keeps the length and an append adds one line. AddMergesIntoFirstMatch and AddAppendsWhenNoMatch give the contents |
| CartContext.AddMergesIntoFirstMatch | src/contexts/CartContext.tsx:54-59 | an add matching line k first raises only that line's quantity, by the added quantity. The line keeps its id, name, price, image and options; the other lines and the length are unchanged |
| CartContext.AddAppendsWhenNoMatch | src/contexts/CartContext.tsx:60-65 | an add matching no line appends the item with id `productId-now` after the old lines, keeping every other field of the caller's item |
| CartContext.Removed | src/contexts/CartContext.tsx:69-71 | removal keeps exactly the lines with another id, in order. Each kept line keeps its multiplicity and every line with the id is gone |
| CartContext.RemoveAbsentIsNoop | src/contexts/CartContext.tsx:69-71 | removing an id no line has changes nothing |
| CartContext.Updated | src/contexts/CartContext.tsx:72-81 | a quantity of 0 or less is removal by id. Otherwise the length and order are kept and exactly the lines with the id take the new quantity |
| CartContext.Cart.constructor | src/contexts/CartContext.tsx:39 | the cart starts empty and valid |
| CartContext.Cart.AddToCart | src/contexts/CartContext.tsx:51-68 | the copy-and-bump update yields `Added(old items)`, and keeps the invariant when the added quantity is positive |
| CartContext.Cart.RemoveFromCart | src/contexts/CartContext.tsx:69-71 | the new list is `Removed(old items, id)` and the invariant is kept |
| CartContext.Cart.UpdateQuantity | src/contexts/CartContext.tsx:72-81 | the new list is `Updated(old items, id, quantity)` and the invariant is kept |
| CartContext.Cart.ClearCart | src/contexts/CartContext.tsx:82-84 | the cart becomes empty |
| CartContext.Cart.GetCartTotal | src/contexts/CartContext.tsx:85-87 | the `reduce` fold equals the sum of price times quantity over the lines |
| CartContext.Cart.GetItemCount | src/contexts/CartContext.tsx:88-90 | the `reduce` fold equals the sum of the quantities |
| CartContext.FoldsMatchTotals | src/contexts/CartContext.tsx:85-90 | a left fold started at any accumulator adds that accumulator to the sum |
| CartContext.Total | src/contexts/CartContext.tsx:85-87 | the reference subtotal, the sum of price times quantity from the front; FoldsMatchTotals ties the source's fold to it |
| CartContext.ItemCount | src/contexts/CartContext.tsx:88-90 | the reference item count, the sum of the quantities; FoldsMatchTotals ties the source's fold to it |
| CartContext.FoldTotal | src/contexts/CartContext.tsx:85-87 | the `reduce` over price times quantity as a left fold; FoldsMatchTotals proves it is the accumulator plus Total |
| CartContext.FoldCount | src/contexts/CartContext.tsx:88-90 | the `reduce` over quantities as a left fold; FoldsMatchTotals proves it is the accumulator plus ItemCount |
| CartContext.QuantityOf | src/contexts/CartContext.tsx:69-71 | how much the lines with an id hold; RemovedItemCount proves removal lowers the count by exactly this |
| CartContext.AddedKeepsValid | src/contexts/CartContext.tsx:51-68 | adding keeps the lines pairwise distinct under the merge identity, and keeps quantities positive for a positive add |
| CartContext.RemovedKeepsValid | src/contexts/CartContext.tsx:69-71 | removal keeps both parts of the invariant |
| CartContext.SubsequenceKeepsValid | src/contexts/CartContext.tsx:70 | any subsequence of a valid list is valid |
| CartContext.SubsequenceElements | src/contexts/CartContext.tsx:70 | every element of a subsequence is an element of the whole |
| CartContext.UpdatedKeepsValid | src/contexts/CartContext.tsx:72-81 | updating a quantity keeps the invariant |
| CartContext.EmptyCartTotals | src/contexts/CartContext.tsx:85-90 | both totals of the empty cart are 0 |
| CartContext.TotalsOfConcat | src/contexts/CartContext.tsx:85-90 | both totals add up over concatenation |
| CartContext.TotalsOfReplace | src/contexts/CartContext.tsx:85-90 | replacing one line changes the totals by that line's difference alone |
| CartContext.AddedItemCount | src/contexts/CartContext.tsx:51-68 | every add raises the item count by exactly the added quantity |
| CartContext.AddedTotal | src/contexts/CartContext.tsx:51-68 | an add raises the total by the quantity times the unit price of the line it lands on. On a merge that is the existing line's price |
| CartContext.RemovedItemCount | src/contexts/CartContext.tsx:69-71 | removal lowers the item count by exactly what the lines with that id held |
| CartContext.UpdatedItemCount | src/contexts/CartContext.tsx:77-80 | setting the quantity of a uniquely identified line changes the count by the difference |
| CartContext.TotalsNonNegative | src/contexts/CartContext.tsx:85-90 | with non-negative prices and positive quantities the total is non-negative and the count is at least the number of lines |
| CartContext.PlainAddsMerge | src/contexts/CartContext.tsx:54-59 | two plain adds of one product make one appended line holding the summed quantity |
| CartContext.CustomAddsWithDifferentOptionsStaySeparate | src/contexts/CartContext.tsx:54 | two custom adds with different options make two lines |
| CartContext.CustomNeverMergesWithPlain | src/contexts/CartContext.tsx:54 | a custom line and a plain line never share an identity |
| Customize.Volume | src/pages/Customized.tsx:33 | the box volume width × height × depth in mm³; EstimatedWeight is stated over it |
| Customize.RoundDiv | src/pages/Customized.tsx:35 | `Math.round(n/d)` is the integer within one half of n/d, with halves going up |
| Customize.EstimatedWeight | src/pages/Customized.tsx:32-36 | the weight is within one half of volume × 0.00125 × infill/100, over exact reals |
| Customize.EstimatedPrice | src/pages/Customized.tsx:38-43 | the price is the larger of 250 and 12 × weight + 100. It is 250 exactly when the weight is at most 12, and 12w + 100 from 13 g up |
| Customize.MoreInfillNeverCheaper | src/pages/Customized.tsx:32-43 | more infill never lowers the weight or the price |
| Customize.RoundDivMonotone | src/pages/Customized.tsx:35 | rounding a quotient is monotone in the numerator |
| Customize.InitialEstimate | src/pages/Customized.tsx:19-24 | the opening configuration (50 × 50 × 10 mm, 20 %) weighs 6 g and costs 250 |
| Customize.SolidBlockEstimate | src/pages/Customized.tsx:32-43 | 100 × 100 × 50 mm at 100 % weighs 625 g and costs 7600 |
| Customize.HasRouteId | src/pages/Customized.tsx:28 | a route id counts only when present and non-empty, as `!productId` decides; ProductFor and CustomItem are stated over it |
| Customize.ProductFor | src/pages/Customized.tsx:27-30 | the product the route names, if any, always has an image |
| Customize.CustomItem | src/pages/Customized.tsx:52-67 | the custom line has the route id or "custom", quantity 1, the estimated price (at least 250) and weight, the chosen options, and the product's or the placeholder's name and image |
| Customize.SameConfigurationMerges | src/pages/Customized.tsx:50-67 | submitting one configuration twice gives one line of quantity 2 |
| Customize.Wizard.constructor | src/pages/Customized.tsx:17-26 | the wizard opens on step 1 with colour #3f83f8, 50 × 50 × 10 mm, 20 % infill and no file |
| Customize.Wizard.NextStep | src/pages/Customized.tsx:69-73 | the step moves up by one below 3 and stays put at 3. Nothing else changes |
| Customize.Wizard.ClickNext | src/pages/Customized.tsx:119-140 | the step-1 button does nothing with neither a product nor a file, and otherwise the buttons act as NextStep. Both invariants are kept, so step 2 or 3 is reached only with something to print |
| Customize.Wizard.CanAddToCart | src/pages/Customized.tsx:51 | the guard of the add: a catalog product or an uploaded file. HandleAddToCart and ClickNext are stated over it |
| Customize.Wizard.PrevStep | src/pages/Customized.tsx:74-78 | the step moves down by one above 1 and stays put at 1. Nothing else changes, and the step gate is kept |
| Customize.Wizard.HandleFileUpload | src/pages/Customized.tsx:44-49 | a chosen file records its name and marks the upload done. No file changes nothing. The step gate is kept |
| Customize.Wizard.SelectColor | src/pages/Customized.tsx:18 | the selected colour becomes the chosen one |
| Customize.Wizard.SelectSize | src/pages/Customized.tsx:19-23 | the selected size becomes the chosen one |
| Customize.Wizard.SelectInfillDensity | src/pages/Customized.tsx:24 | the infill becomes the chosen one |
| Customize.Wizard.HandleAddToCart | src/pages/Customized.tsx:50-68 | with neither a product nor a file nothing changes. Otherwise exactly the custom line is added |
| Catalog.GetProductById | src/utils/mockData.tsx:224-226 | the lookup over the product table; FindById and GetProductByIdFindsTheProduct state what it finds |
| Catalog.GetProductsByCategory | src/utils/mockData.tsx:227-229 | the category query over the product table; ProductsByCategoryExactly states its contents |
| Catalog.FindById | src/utils/mockData.tsx:224-226 | `find` returns the first product with the id, and none exactly when no product has it |
| Catalog.ProductsByCategoryExactly | src/utils/mockData.tsx:227-229 | the category query keeps catalog order and holds exactly the products of that category |
| Catalog.RelatedCandidates | src/utils/mockData.tsx:233 | the same-category products other than the given one, in catalog order; RelatedIn is stated over it |
| Catalog.GetRelatedProducts | src/utils/mockData.tsx:230-234 | the related query over the product table, with an omitted limit read as 4; RelatedIn states the result |
| Catalog.OmittedLimitIsFour | src/utils/mockData.tsx:230 | omitting the limit is passing 4, so at most 4 products come back |
| Catalog.RelatedIn | src/utils/mockData.tsx:230-234 | an unknown id gives nothing. Otherwise the result omits the id, stays in the category, is a prefix of the filtered list and has length min(limit, count) |
| Catalog.CatalogWellFormed | src/utils/mockData.tsx:43-223 | catalog ids are pairwise distinct and every product has an image |
| Catalog.GetProductByIdFindsTheProduct | src/utils/mockData.tsx:224-226 | looking up any catalog product's id finds that very product |
| Catalog.FoundProductHasImage | src/utils/mockData.tsx:224-226 | a found product has a first image |
| ProductFilter.MinOf | src/pages/Products.tsx:17 | `Math.min` of a non-empty list is an element and bounds every element from below |
| ProductFilter.MaxOf | src/pages/Products.tsx:18 | `Math.max` of a non-empty list is an element and bounds every element from above |
| ProductFilter.Prices | src/pages/Products.tsx:17-18 | the price list has one entry per product, in order |
| ProductFilter.Passes | src/pages/Products.tsx:22-30 | the three conditions of the listing: the category if one is set, the price range, and the switch if it is on |
| ProductFilter.Listed | src/pages/Products.tsx:20-31 | the listing as one filter by Passes; ListedExactly and ApplyFilters are stated over it |
| ProductFilter.ApplyFilters | src/pages/Products.tsx:19-32 | the step-by-step narrowing (category if set, then price, then the switch if on) lists exactly `Listed` |
| ProductFilter.ListedExactly | src/pages/Products.tsx:20-31 | the listing keeps catalog order and a product appears exactly when it passes all three conditions. A passing product appears as often as in the catalog, and a failing one never |
| ProductFilter.EmptyCategoryRestrictsNothing | src/pages/Products.tsx:22-24 | with no category selected only the price and the switch decide |
| ProductFilter.InvertedRangeListsNothing | src/pages/Products.tsx:26 | a lower bound above the upper bound lists nothing |
| ProductFilter.ResetListsEverything | src/pages/Products.tsx:17-18 | the range from the cheapest to the dearest product, with no category and no switch, lists the whole catalog |
| ProductFilter.ProductsPage.MinPrice | src/pages/Products.tsx:17 | the cheapest price of the page's table; ResetListsEverything is stated over it |
| ProductFilter.ProductsPage.MaxPrice | src/pages/Products.tsx:18 | the dearest price of the page's table; ResetListsEverything is stated over it |
| ProductFilter.ProductsPage.constructor | src/pages/Products.tsx:10-14 | the page opens with the query category, the range 0 to 5000, the switch off and the matching list |
| ProductFilter.ProductsPage.HandleCategoryChange | src/pages/Products.tsx:33-35 | choosing the selected category clears it, and any other choice selects it. The list follows |
| ProductFilter.ProductsPage.HandlePriceChange | src/pages/Products.tsx:36-43 | only the bound the input names changes, and the list follows |
| ProductFilter.ProductsPage.HandleCustomizableChange | src/pages/Products.tsx:44-46 | the switch takes the checkbox value and the list follows |
| ProductFilter.ProductsPage.ResetFilters | src/pages/Products.tsx:47-51 | no category, the full catalog price range and the switch off list the whole catalog |
| CartPage.Shipping | src/pages/Cart.tsx:28 | shipping is 100 exactly for a non-empty cart and 0 exactly for the empty one |
| CartPage.Tax | src/pages/Cart.tsx:29 | the tax is within one half of 18 % of the subtotal, over exact reals |
| CartPage.TaxBounds | src/pages/Cart.tsx:29 | the tax on a non-negative subtotal lies between 0 and the subtotal |
| CartPage.OrderTotal | src/pages/Cart.tsx:30 | subtotal plus shipping plus tax; OrderTotalCoversSubtotal and EmptyOrderTotal bound it |
| CartPage.OrderTotalCoversSubtotal | src/pages/Cart.tsx:28-30 | with non-negative prices and every quantity at least 1, the total is at least the subtotal, plus 100 when the cart has items |
| CartPage.EmptyOrderTotal | src/pages/Cart.tsx:28-30 | the empty cart owes 0 |
| CartPage.DecrementAtOneRemoves | src/pages/Cart.tsx:137 | "−" on a line at quantity 1 removes the line |
| CartPage.DecrementAboveOneLowersCount | src/pages/Cart.tsx:137 | "−" above 1 keeps every line and lowers the count by one |
| CartPage.IncrementRaisesCount | src/pages/Cart.tsx:143 | "+" raises the count by one |
| CartPage.CheckoutPage.constructor | src/pages/Cart.tsx:26 | no order has been placed yet |
| CartPage.CheckoutPage.Decrease | src/pages/Cart.tsx:137 | the cart is updated to quantity − 1 for that line's id |
| CartPage.CheckoutPage.Increase | src/pages/Cart.tsx:143 | the cart is updated to quantity + 1 for that line's id |
| CartPage.CheckoutPage.Remove | src/pages/Cart.tsx:147 | the line's id is removed from the cart |
| CartPage.CheckoutPage.HandleCheckout | src/pages/Cart.tsx:41-52 | the order is marked placed and the cart is empty |
| ProductDetail.DetailItem | src/pages/ProductDetail.tsx:41-51 | the submitted line is plain and carries the product's id, name, price and first image, the chosen quantity, and no options or weight |
| ProductDetail.RepeatedAddsMerge | src/pages/ProductDetail.tsx:41-51 | two adds from the page make one line holding both quantities |
| ProductDetail.ProductDetailPage.constructor | src/pages/ProductDetail.tsx:27 | the quantity starts at 1 |
| ProductDetail.ProductDetailPage.Product | src/pages/ProductDetail.tsx:19-22 | a product shown always has an image |
| ProductDetail.ProductDetailPage.Related | src/pages/ProductDetail.tsx:23-26 | nothing without a route id. Otherwise at most 4 catalog products, none of them the product itself |
| ProductDetail.ProductDetailPage.Decrement | src/pages/ProductDetail.tsx:121 | "−" lowers the quantity only above 1, so it never goes below 1 |
| ProductDetail.ProductDetailPage.Increment | src/pages/ProductDetail.tsx:125 | "+" raises the quantity by one |
| ProductDetail.ProductDetailPage.HandleQuantityChange | src/pages/ProductDetail.tsx:52-57 | only a positive number is taken, and anything else leaves the quantity |
| ProductDetail.ProductDetailPage.HandleAddToCart | src/pages/ProductDetail.tsx:30-51 | an unknown product adds nothing. Otherwise the detail line at the chosen quantity is added |
| ProductCard.CardItem | src/components/ui/ProductCard.tsx:18-28 | the tile submits one plain unit with the product's id, name, price and first image, and no options |
| ProductCard.CardItemIsDetailItemOfOne | src/components/ui/ProductCard.tsx:18-28 | the tile's line is the product page's line at quantity 1, and shares its merge identity with the page's line at any quantity |
| ProductCard.ShowsCustomizeLink | src/components/ui/ProductCard.tsx:13-50 | the link condition, with an omitted flag read as true; the three lemmas below are stated over it |
| ProductCard.ListingLinksExactlyCustomizable | src/pages/Products.tsx:184 | the listing passes no flag, so every listed tile shows the link exactly when its product is customisable |
| ProductCard.RelatedStripHasNoLinks | src/pages/ProductDetail.tsx:146 | the related strip passes false, so none of its tiles shows the link |
| ProductCard.ExplicitTrueIsDefault | src/components/ui/ProductCard.tsx:13 | passing true shows the link exactly when omitting the flag does |
| Contact.IsSpace | src/pages/Contact.tsx:43 | the characters `trim` and `\s` treat as whitespace; Blank and the pattern are stated over it |
| Contact.TrimStart | src/pages/Contact.tsx:43 | drops leading whitespace and never lengthens; TrimStartDropsLeadingSpace states what it keeps |
| Contact.TrimEnd | src/pages/Contact.tsx:43 | drops trailing whitespace and never lengthens; TrimEndDropsTrailingSpace states what it keeps |
| Contact.Trim | src/pages/Contact.tsx:43 | `trim()` as both one-sided trims; TrimEmptyIffBlank states when it is empty |
| Contact.TrimStartDropsLeadingSpace | src/pages/Contact.tsx:43 | the leading trim removes only whitespace and leaves a non-space first character |
| Contact.TrimEndDropsTrailingSpace | src/pages/Contact.tsx:43 | the trailing trim removes only whitespace and leaves a non-space last character |
| Contact.TrimEmptyIffBlank | src/pages/Contact.tsx:43-53 | a trimmed field is empty exactly when it is all whitespace |
| Contact.AddressAt | src/pages/Contact.tsx:48 | where each character of `x@y.z` comes from |
| Contact.WindowIsMatch | src/pages/Contact.tsx:48 | a window the check accepts is a match of `\S+@\S+\.\S+` |
| Contact.MatchHasWindow | src/pages/Contact.tsx:48 | any match of the pattern gives a window the check accepts |
| Contact.EmailCheckMatchesPattern | src/pages/Contact.tsx:48 | the check holds exactly when the unanchored pattern matches some substring |
| Contact.PatternMatches | src/pages/Contact.tsx:48 | the unanchored regular expression `\S+@\S+\.\S+` matches some substring |
| Contact.EmailLooksValid | src/pages/Contact.tsx:48 | the executable form of the pattern test; EmailCheckMatchesPattern proves it agrees with PatternMatches both ways |
| Contact.NameError | src/pages/Contact.tsx:43-45 | the name's message, if any; ValidationErrorsExactly states when it appears |
| Contact.EmailError | src/pages/Contact.tsx:46-50 | the email's message, if any, required before invalid; ValidationErrorsExactly states when each appears |
| Contact.MessageError | src/pages/Contact.tsx:51-53 | the message field's message, if any; ValidationErrorsExactly states when it appears |
| Contact.ValidationErrors | src/pages/Contact.tsx:41-56 | errors only ever name the name, email or message field. Phone, subject and file never produce one |
| Contact.ValidationErrorsExactly | src/pages/Contact.tsx:43-53 | name and message errors appear exactly when the field is blank. The email is "required" when blank and "invalid" when the pattern matches nowhere, with the exact messages |
| Contact.PassesIffRequiredFieldsPresent | src/pages/Contact.tsx:55 | the map is empty exactly when the name and message are present and the email is present and matches |
| Contact.ContactForm.constructor | src/pages/Contact.tsx:5-15 | the form opens empty, with no file, no errors and no success note |
| Contact.ContactForm.Validate | src/pages/Contact.tsx:41-56 | the map built check by check is `ValidationErrors`, the result is true exactly when it is empty, and the fields are untouched |
| Contact.ContactForm.HandleChange | src/pages/Contact.tsx:16-32 | only the edited field takes the value. Its error is blanked if it had one, and every other error is unchanged |
| Contact.ContactForm.HandleFileChange | src/pages/Contact.tsx:33-40 | a chosen file replaces the attachment, and an empty choice changes nothing |
| Contact.ContactForm.HandleSubmit | src/pages/Contact.tsx:57-83 | an invalid form only shows its errors. A valid one is cleared, drops its file and shows the thank-you note |
| Auth.ApplyPatch | src/contexts/AuthContext.tsx:66-69 | every supplied field replaces the user's, and every other field is kept |
| Auth.EmptyPatchIsIdentity | src/contexts/AuthContext.tsx:66-69 | an edit supplying nothing changes nothing |
| Auth.PatchIdempotent | src/contexts/AuthContext.tsx:66-69 | applying an edit twice is applying it once |
| Auth.Then | src/contexts/AuthContext.tsx:66-69 | the edit that supplies each field the later edit supplies, and otherwise the earlier one's; PatchesCompose proves it is the two edits in a row |
| Auth.PatchesCompose | src/contexts/AuthContext.tsx:66-69 | two edits in a row are one edit with the later fields winning |
| Auth.PatchWithOwnFields | src/contexts/AuthContext.tsx:66-69 | editing with the user's own values leaves them as they were |
| Auth.Session.constructor | src/contexts/AuthContext.tsx:22-23 | nobody is signed in at first |
| Auth.Session.Login | src/contexts/AuthContext.tsx:32-45 | the user becomes {"123", "Demo User", the email, "Sample Address, City, India"} and is authenticated. The password plays no part |
| Auth.Session.Register | src/contexts/AuthContext.tsx:46-58 | the user becomes {"123", the name, the email} with no address and is authenticated |
| Auth.Session.Logout | src/contexts/AuthContext.tsx:59-63 | there is no user and nobody is authenticated |
| Auth.Session.UpdateProfile | src/contexts/AuthContext.tsx:64-73 | without a user nothing happens. Otherwise the user is the patched one, and authentication and the invariant are kept |

## Left out

- Persistence is not modelled: the cart and the session are never loaded from or saved to browser storage. It is I/O, and the stored data is a snapshot of the modelled state.
- Time is not modelled:
  - The delays before checkout, login, registration and the contact submission, and the redirect and the success-note timeout, are left out. Only the resulting state change is modelled.
  - `Date.now()` is a `now` parameter, and the model claims no uniqueness for line ids: two adds in the same millisecond would collide.
- CartContext.SameLine compares custom options as values. The source compares their `JSON.stringify` text, which depends on key order and drops undefined fields.
- CartContext.Cart.AddToCart builds a new list. The source also bumps the quantity of an object shared with the previous React state; that aliasing is not modelled.
- Floating point is not modelled. The estimator's and the tax's products are exact rationals, rounded half up, so IEEE-754 mis-rounding near .5 is out of scope.
- Total and ItemCount are sums from the front. The source's `reduce` is a left fold; `FoldTotal`/`FoldCount` model that fold and are proved equal to the sums.
- `parseInt` is not modelled. Typed numbers arrive already parsed; on the product page, none stands for NaN.
- Contact.IsSpace is the fixed JavaScript whitespace set. Unicode case folding and normalisation are not modelled.
- Contact.ContactForm.HandleSubmit leaves out `isSubmitting`, which is true only while the simulated request is pending.
- Customize.CustomItem never sets the `material` option: the source supplies none.
- Customize.Wizard.HandleFileUpload and Contact.ContactForm.HandleFileChange take the chosen file by name. Nothing else of a `File` object is used.
- ProductFilter.ProductsPage holds its product table as a field set to the catalog by its constructor, so the proofs are about any non-empty table.
- Catalog.CatalogWellFormed does not state that every product's category is one of the declared categories.
- ProductDetail.ProductDetailPage.HandleAddToCart is a no-op when the product is unknown. The source instead renders the not-found page, which offers no add button.
- Auth.ApplyPatch: a field the edit leaves out is always kept, so the model cannot clear a field. In the source, an explicit `undefined` in `data` overwrites the field through the spread; the one caller, the account page's profile form, always passes a name and an address as strings.
- Customize.Wizard.HandleAddToCart keeps its own guard and is callable in any state. The buttons reach it only at step 3, and ClickNext keeps the gate that makes the guard pass there; the step number itself is not a precondition of the add.
- Rendering and routing are out of scope: JSX, image galleries, the model viewer, the filter drawer and the checkout address form. So are the other pages, the header, the footer and the auth modal.
