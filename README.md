# Clothing store documents in Dafny

This project models the four Mongoose documents of an online clothing store:
the shopping cart, the product, the order and the review. For each document it
models the instance methods, the pre-save hook, the virtuals and the field
validators, and it proves what those promise.

Each document is a Dafny `class` whose fields the methods update in place, and
each class has a `Save` method. A Mongoose `save()` is modelled as that hook
applied to the fields: a method that ends with `return this.save()` ends with a
call to `Save`. The values the documents only derive (`cartTotal`, `getStock`,
`totalStock`, `currentPrice`, the slug, the order number and so on) are
module-level functions over the field values. The lemmas talk about those
functions, and the methods are proved against them.

| file | module | document |
|---|---|---|
| `common.dfy` | `Common` | the JavaScript built-ins the documents rely on: `findIndex`, `reduce` as `Sum`, ASCII `toLowerCase`, `trim`, `String(n)`, `padStart`, `substr(-2)`; the error values |
| `cart.dfy` | `CartModel` | `Cart.js` |
| `product.dfy` | `ProductModel` | `Product.js` |
| `order.dfy` | `OrderModel` | `Order.js` |
| `review.dfy` | `ReviewModel` | `Review.js` |

How the model represents the source:

- Money is an `int` (cents).
- The rating average is a `real`, an idealisation of a JavaScript double.
- A thrown `Error` is a `Fail(e)` outcome, or an `Err(e)` result for a function. The document is then left exactly as it was.
- The clock (`Date.now()`, `new Date()`) is a parameter. So are the ObjectIds of new subdocuments and the day's order count, which the source reads with `countDocuments`.
- `isNew` is a field of `Product` and `Order`, the two documents whose hooks read it, and means "not yet saved". The Product schema also declares a stored `isNew` path of its own (a "new arrival" flag); the model does not follow that clash (see "## Left out"). `isModified('status')` and `isModified('name')` are `statusModified` and `nameModified` flags. Assigning a different value sets the flag, and a save clears it.

Behaviour of the source that the model keeps as written:

- **`addItem` on an existing line** prices the line's `totalPrice` with the `unitPrice` argument. The line's stored `unitPrice` is left unchanged (`Cart.js:97-99`).
- **`.trim('-')` strips white space only.** It does not strip hyphens. The name is stored trimmed, so spaces at its ends never reach the hook; but a name that starts or ends with a character the first replace drops, followed by a space (`"* a *"`), or with a hyphen (`"-a-"`), yields a slug that starts and ends with `-` (`SlugKeepsEdgeHyphens`).
- **Status history can get two entries for one change.** `addStatusHistory` pushes an entry. The save it calls then pushes a "Status changed to …" entry whenever the status was modified on an order that is already stored (`TransitionEntries`).
- **`requestReturn` reads `this.deliveredAt`.** The schema has no such path; the delivery date lives at `shipping.deliveredAt`. The value it reads is taken as a parameter `deliveredAt: Option<int>`. With `None` (the field is undefined), the comparison with the window is false in JavaScript, so the window never expires.
- **The `mergeGuestCart` loop is `addItem` applied to each guest line in order.** Every step saves the cart. `MergeLines` is that fold, and `Cart.MergeGuestCart` is proved equal to it.

## Model

| member | source | states |
|---|---|---|
| `Common.FindIndex` | backend/models/Cart.js:89-93 | `findIndex`/`find`: the result is -1 or an index whose element satisfies the predicate, and no earlier element satisfies it |
| `Common.TrimIdempotent` | backend/models/Product.js:4-9 | the schema's trim setter is idempotent: trimming a trimmed name changes nothing |
| `Common.PadStartValue` | backend/models/Order.js:249-250 | `String(n).padStart(w, '0')` is all digits and reads back as `n` |
| `Common.NatToStringRoundTrip` | backend/models/Order.js:261 | the digits of `String(n)` read back as `n` |
| `Common.LastTwoDigits` | backend/models/Order.js:248 | `year.toString().substr(-2)` of a year with two or more digits is two digits that denote the year modulo 100 |
| `CartModel.AddItemMergesExisting` | backend/models/Cart.js:89-99 | adding an existing triple keeps the number of lines; that line's quantity becomes min(old + q, 10) and its total is priced with the argument's unit price; its stored unit price, id and other lines are unchanged |
| `CartModel.AddItemAppendsNew` | backend/models/Cart.js:100-111 | adding a new triple appends exactly one line with quantity min(q, 10), total min(q, 10) × unitPrice and the given id, after the unchanged old lines |
| `CartModel.CartTotal` | backend/models/Cart.js:71-73 | the `cartTotal` virtual, the reduce of line totals; no ensures of its own: how it moves is stated by `UpdateQuantityEffect` and by the `Sum` lemmas it is built on |
| `CartModel.TotalItems` | backend/models/Cart.js:66-68 | the `totalItems` virtual, the reduce of quantities; no ensures of its own: `AddItemItemCount` and `UpdateQuantityEffect` state how it moves |
| `CartModel.AddItemLines` | backend/models/Cart.js:88-111 | addItem's lines before the save; no ensures of its own: `AddItemMergesExisting`, `AddItemAppendsNew` and `AddItemKeepsInvariants` state what it does |
| `CartModel.UpdateQuantityLines` | backend/models/Cart.js:117-128 | updateItemQuantity's lines before the save; no ensures of its own: `UpdateQuantityEffect` and `UpdateQuantityKeepsInvariants` state what it does |
| `CartModel.MergeLines` | backend/models/Cart.js:172-186 | the mergeGuestCart loop as a fold of addItem; no ensures of its own: `MergeLinesStep`, `MergeKeepsInvariants` and `MergeHoldsEveryGuest` state what it does |
| `CartModel.AddItemKeepsInvariants` | backend/models/Cart.js:24-29 | addItem keeps triples and ids unique; for q ≥ 1 it keeps every quantity within the schema's 1..10; no id appears except the new one |
| `CartModel.MergeLineKeepsInvariants` | backend/models/Cart.js:97-99 | rewriting one line's quantity and total keeps ids and triples unique and, within 1..10, the quantity bounds |
| `CartModel.AppendLineKeepsInvariants` | backend/models/Cart.js:102-110 | pushing a line with a new triple and a new id keeps triples and ids unique |
| `CartModel.AddItemFindsInput` | backend/models/Cart.js:88-111 | after addItem the cart holds a line with the argument's triple |
| `CartModel.AddItemItemCount` | backend/models/Cart.js:82 | the item count moves by exactly what the line gained: the capped difference for a merge, min(q, 10) for a new line, never more than q |
| `CartModel.UpdateQuantityEffect` | backend/models/Cart.js:123-128 | q ≤ 0 removes that line only, and the totals drop by its quantity and price; otherwise the quantity becomes min(q, 10) ≥ 1, the total is priced with the line's own unit price, the line keeps its id, triple, unit price and addedAt, the other lines are unchanged, and the totals move by the line's change |
| `CartModel.UpdateQuantityKeepsInvariants` | backend/models/Cart.js:117-131 | updateItemQuantity keeps ids and triples unique and quantities in 1..10, and adds no id |
| `CartModel.RemoveLineKeepsInvariants` | backend/models/Cart.js:140 | removing one line keeps ids and triples unique and quantities in range |
| `CartModel.SetQuantityKeepsInvariants` | backend/models/Cart.js:126-127 | setting a line's quantity within 1..10 keeps every invariant |
| `CartModel.RemoveByIdRemovesIt` | backend/models/Cart.js:134-142 | with unique ids, removing the line found by id removes exactly that id from the cart's ids |
| `CartModel.MergeKeepsInvariants` | backend/models/Cart.js:172-186 | merging a guest cart keeps triples unique and, for guest quantities ≥ 1, quantities in 1..10 |
| `CartModel.MergeHoldsEveryGuest` | backend/models/Cart.js:175-183 | after the merge, every guest line's triple has a line in the cart |
| `CartModel.AddItemKeepsKey` | backend/models/Cart.js:95-111 | addItem never loses a triple the cart held |
| `CartModel.MergeLinesStep` | backend/models/Cart.js:175-183 | one more guest line is one more addItem on the lines merged so far |
| `CartModel.Cart.constructor` | backend/models/Cart.js:3-58 | a new cart is empty, with zero totals |
| `CartModel.Cart.Save` | backend/models/Cart.js:80-85 | the hook stores subtotal = the sum of line totals (`cartTotal`), itemCount = the sum of quantities (`totalItems`), and stamps `lastUpdated` |
| `CartModel.Cart.AddItem` | backend/models/Cart.js:88-114 | the lines become `AddItemLines` of the old lines; ids and triples stay unique; the stored totals match the lines |
| `CartModel.Cart.UpdateItemQuantity` | backend/models/Cart.js:117-131 | an unknown id fails with ItemNotFound and changes nothing; otherwise the lines become `UpdateQuantityLines` and the totals match |
| `CartModel.Cart.RemoveItem` | backend/models/Cart.js:134-142 | an unknown id fails and changes nothing; otherwise exactly that line is removed, its id is gone and the totals match |
| `CartModel.Cart.ClearCart` | backend/models/Cart.js:145-148 | no lines are left and both totals are 0 |
| `CartModel.Cart.MergeGuestCart` | backend/models/Cart.js:172-186 | the loop leaves the lines equal to `MergeLines`, the fold of addItem over the guest lines, with the invariants and totals kept |
| `ProductModel.CurrentPriceBounds` | backend/models/Product.js:48-61 | under the validators, 0 ≤ currentPrice ≤ basePrice, and currentPrice < basePrice iff a non-zero sale price is set (currentPrice is the sale price when it is truthy, else the base price) |
| `ProductModel.SalePriceValid` | backend/models/Product.js:53-61 | the salePrice validator `!value || value < basePrice`; a predicate with no ensures, used by `CurrentPriceBounds` |
| `ProductModel.CurrentPrice` | backend/models/Product.js:187-189 | `salePrice || basePrice` is one of the two prices, and the base price when there is no sale price |
| `ProductModel.GetStock` | backend/models/Product.js:269-275 | getStock never fails; an unknown colour gives 0; any non-zero result is the stock of an entry for that colour (in any case) and size |
| `ProductModel.AvailableIffSomeStock` | backend/models/Product.js:198-207 | with no negative stock, totalStock ≥ 0, and isAvailable iff the product is active and some size of some colour has stock |
| `ProductModel.TotalStock` | backend/models/Product.js:198-202 | the `totalStock` virtual, a reduce of reduces; no ensures of its own: `AvailableIffSomeStock`, `WithStockTotal` and `StockUpdateTotal` state its properties |
| `ProductModel.IsAvailable` | backend/models/Product.js:205-207 | an inactive product is never available; `AvailableIffSomeStock` gives the full iff |
| `ProductModel.StockUpdate` | backend/models/Product.js:278-291 | a missing colour gives ColorVariantNotFound, a missing size gives SizeNotFound, and stock + delta < 0 gives InsufficientStock, each iff its condition holds; on success the stock getStock reports moves by exactly delta and stays ≥ 0 |
| `ProductModel.StockUpdateTotal` | backend/models/Product.js:289 | a successful update moves totalStock by exactly delta and keeps all stocks non-negative |
| `ProductModel.WithStockTotal` | backend/models/Product.js:198-202 | setting one entry's stock moves totalStock by the difference |
| `ProductModel.StockUpdateFrame` | backend/models/Product.js:279-289 | a successful update leaves getStock unchanged for a colour that differs ignoring case, and for any other size |
| `ProductModel.StockUpdateWrites` | backend/models/Product.js:279-289 | a successful update writes the adjusted stock into the entry the two finds select |
| `ProductModel.OtherLookupMisses` | backend/models/Product.js:279-282 | a lookup for another colour (ignoring case) or another size does not select the updated entry |
| `ProductModel.WithStockFrame` | backend/models/Product.js:289 | changing one entry leaves every lookup that does not select it unchanged |
| `ProductModel.InStockOffers` | backend/models/Product.js:259-265 | the filter and map: every offer has stock > 0 and is some size priced with its adjustment; every size in stock is offered |
| `ProductModel.InStockOffersConcat` | backend/models/Product.js:259-265 | the filter keeps order: the offers of two runs of sizes are the first run's followed by the second's |
| `ProductModel.GetAvailableSizes` | backend/models/Product.js:255-266 | an unknown colour gives []; every offer has stock > 0 and is an entry for that colour, priced currentPrice + priceAdjustment |
| `ProductModel.AvailableSizesComplete` | backend/models/Product.js:259-265 | every in-stock size of the matching variant is offered |
| `ProductModel.PrimaryCountZero` | backend/models/Product.js:242 | the primary filter is empty iff no image is primary |
| `ProductModel.PrimaryCountOne` | backend/models/Product.js:242-249 | a list whose only primary is at index k has exactly one primary |
| `ProductModel.NormalizeGivesOnePrimary` | backend/models/Product.js:242-249 | after the hook a non-empty image list has exactly one primary: index 0 when there were none or several, and an existing single primary is kept unchanged |
| `ProductModel.NormalizePrimary` | backend/models/Product.js:242-249 | the hook keeps the number of images and their urls |
| `ProductModel.PrimaryImage` | backend/models/Product.js:210-213 | none iff there are no images; the first primary image of the list when any exists; otherwise the first image |
| `ProductModel.KeepSlugChars` | backend/models/Product.js:230 | `replace(/[^a-z0-9 -]/g, '')` leaves only a-z, 0-9, space and hyphen |
| `ProductModel.KeepSlugCharsAll` | backend/models/Product.js:230 | a string already made of slug characters passes the filter unchanged |
| `ProductModel.DropRun` | backend/models/Product.js:231-232 | dropping a leading run leaves a suffix that does not start with the run's class, shorter when there was a run |
| `ProductModel.CollapseSpacesSlugChars` | backend/models/Product.js:230-231 | after `replace(/\s+/g, '-')` the kept characters are all in a-z, 0-9 and '-' |
| `ProductModel.CollapseHyphensSlugChars` | backend/models/Product.js:232 | `replace(/-+/g, '-')` keeps the slug characters |
| `ProductModel.CollapseHyphensNoRepeat` | backend/models/Product.js:232 | after `replace(/-+/g, '-')` no two hyphens are adjacent |
| `ProductModel.CollapseRunsNone` | backend/models/Product.js:231-232 | a string with no character of the class passes unchanged |
| `ProductModel.CollapseHyphensSingles` | backend/models/Product.js:232 | a string with no double hyphen passes hyphen collapsing unchanged |
| `ProductModel.CollapseShape` | backend/models/Product.js:231-232 | the two collapsing replaces yield only slug characters and no double hyphen |
| `ProductModel.SlugShape` | backend/models/Product.js:227-233 | the name part of the slug holds only a-z, 0-9 and '-', never two hyphens in a row |
| `ProductModel.SlugIdempotent` | backend/models/Product.js:227-233 | the name part of a slug is its own slug |
| `ProductModel.SlugKeepsEdgeHyphens` | backend/models/Product.js:233 | `.trim('-')` strips white space only: the stored name "* a *" (the trim setter leaves it as it is) has the slug "-a-" |
| `ProductModel.Slugify` | backend/models/Product.js:228-233 | the name part of the slug; no ensures of its own: `SlugShape`, `SlugIdempotent` and `SlugKeepsEdgeHyphens` state its properties |
| `ProductModel.NewSlug` | backend/models/Product.js:228-238 | a new document's slug, the name part + "-" + `Date.now()`; no ensures of its own, used by `Product.Save` |
| `ProductModel.SlugAfterSave` | backend/models/Product.js:226-240 | the slug branches of the hook; no ensures of its own: `Product.Save` states the resulting slug through it |
| `ProductModel.AddRating` | backend/models/Product.js:298-300 | addReview's aggregate: the count grows by one and the sum (average × count) grows by the rating |
| `ProductModel.RemoveRating` | backend/models/Product.js:310-317 | removeReview's aggregate: with count ≤ 1 it resets to (0, 0); otherwise the count drops by one and the sum by the rating |
| `ProductModel.AddThenRemoveRestores` | backend/models/Product.js:294-320 | with exact arithmetic, adding a rating and removing it again restores (average, count) |
| `ProductModel.AddRatingInRange` | backend/models/Product.js:298-300 | a rating in 1..5 (what the review's `rating` validator admits) added to an average in 0..5 keeps the average in 0..5 |
| `ProductModel.Pull` | backend/models/Product.js:307 | `reviews.pull(id)` keeps exactly the other ids |
| `ProductModel.PullConcat` | backend/models/Product.js:307 | pull works id by id: the other ids keep their order and their repeats |
| `ProductModel.PullAbsent` | backend/models/Product.js:307 | pulling an id the list does not hold leaves the list unchanged |
| `ProductModel.PushThenPull` | backend/models/Product.js:295-307 | pulling an id just pushed onto a list without it restores the list |
| `ProductModel.Product.constructor` | backend/models/Product.js:3-9 | a new unsaved product whose name went through the trim setter |
| `ProductModel.Product.SetName` | backend/models/Product.js:4-9 | assigning the name trims it and marks it modified when the value changes |
| `ProductModel.Product.NormalizeImages` | backend/models/Product.js:242-249 | the forEach loop leaves the images equal to `NormalizePrimary` of the old ones |
| `ProductModel.Product.Save` | backend/models/Product.js:226-252 | a new product's slug is its name's slug + "-" + the time; a renamed one's is the new name's slug; otherwise unchanged; a non-empty image list ends with exactly one primary |
| `ProductModel.Product.UpdateStock` | backend/models/Product.js:278-291 | each error changes nothing; on success the matrix is `StockUpdate`'s, getStock moves by delta and stays ≥ 0, totalStock moves by delta, then the hook runs |
| `ProductModel.Product.AddReview` | backend/models/Product.js:294-303 | the id is appended and the aggregate is `AddRating` of the old one |
| `ProductModel.Product.RemoveReview` | backend/models/Product.js:306-320 | the id is pulled and the aggregate is `RemoveRating` of the old one |
| `OrderModel.PadStartExact` | backend/models/Order.js:249-261 | a number below 10^w padded to w takes exactly w digits and reads back |
| `OrderModel.OrderNumberFields` | backend/models/Order.js:262 | the template string splits back into "ORD" and its four fields |
| `OrderModel.OrderNumberDecodes` | backend/models/Order.js:246-263 | for fewer than 9999 orders that day the number is 13 characters, starts "ORD", and its fields read back as year mod 100, month, day and count + 1 |
| `OrderModel.OrderNumber` | backend/models/Order.js:246-262 | the generated order number; no ensures of its own: `OrderNumberDecodes` and `OrderNumbersDistinct` state its format and uniqueness |
| `OrderModel.OrderNumbersDistinct` | backend/models/Order.js:257-262 | two orders of the same day with different counts get different numbers |
| `OrderModel.BillingAfterSaveCases` | backend/models/Order.js:275-280 | billing says sameAsShipping iff it was marked so or had no street; it is then a copy of the shipping address, otherwise untouched; a second save changes nothing |
| `OrderModel.BillingAfterSave` | backend/models/Order.js:275-280 | the billing default of the hook; no ensures of its own: `BillingAfterSaveCases` states its cases and idempotence |
| `OrderModel.WithSameAsShipping` | backend/models/Order.js:116-119 | the schema default of `billingAddress.sameAsShipping`: true when the flag is omitted; no ensures of its own: `BillingFlagDefault` states its consequence |
| `OrderModel.BillingFlagDefault` | backend/models/Order.js:116-119 | a billing address given without the flag is replaced by a copy of the shipping address at the first save, even with a street; an explicit false with a street keeps the caller's address |
| `OrderModel.TotalsUnderSchema` | backend/models/Order.js:222-224 | with quantities ≥ 1 and totals ≥ 0, totalItems ≥ the number of lines and the subtotal ≥ 0 |
| `OrderModel.TotalItems` | backend/models/Order.js:222-224 | the `totalItems` virtual, the reduce of line quantities; no ensures of its own: `TotalItemsAppend` and `TotalsUnderSchema` state its properties |
| `OrderModel.TotalItemsAppend` | backend/models/Order.js:222-224 | one more line adds exactly its quantity to totalItems |
| `OrderModel.SubtotalFromLines` | backend/models/Order.js:287 | when each line's total is quantity × unitPrice, the subtotal is the sum of those products |
| `OrderModel.ItemsSubtotal` | backend/models/Order.js:287 | the reduce of calculateTotal over line totals; no ensures of its own: `SubtotalFromLines`, `TotalsUnderSchema` and `Order.CalculateTotal` state its properties |
| `OrderModel.GrandTotal` | backend/models/Order.js:288 | subtotal + shipping + tax − discount; no ensures of its own: `GrandTotalBounds` states its bounds |
| `OrderModel.GrandTotalBounds` | backend/models/Order.js:288 | total ≥ subtotal iff discount ≤ shipping + tax; with non-negative charges the total is at least subtotal − discount |
| `OrderModel.CancelTransition` | backend/models/Order.js:334-338 | cancelling fails iff the status is shipped or delivered; otherwise the status becomes cancelled |
| `OrderModel.PaymentTransition` | backend/models/Order.js:324-326 | the status changes iff it was pending, and then becomes confirmed |
| `OrderModel.ShippingTransition` | backend/models/Order.js:308-309 | the status changes iff it was processing and a truthy tracking number is given, and then becomes shipped |
| `OrderModel.ShippedAndDeliveredAreFinal` | backend/models/Order.js:305-342 | no guarded transition leaves shipped or delivered, and each leads only to its own target or nowhere |
| `OrderModel.CancelNote` | backend/models/Order.js:339 | the reason when a non-empty one is given, else 'Order cancelled'; never empty |
| `OrderModel.HookEntries` | backend/models/Order.js:266-272 | the hook appends at most one entry, exactly when the status was modified on a stored order, carrying the current status and time |
| `OrderModel.TransitionEntriesShape` | backend/models/Order.js:293-302 | addStatusHistory appends its own entry first, then a second one iff the order is stored and its status was modified; all carry the new status |
| `OrderModel.TransitionEntries` | backend/models/Order.js:293-302 | the entries one addStatusHistory appends, its own and the hook's; no ensures of its own: `TransitionEntriesShape` states their shape |
| `OrderModel.MergeShipping` | backend/models/Order.js:306 | `Object.assign`: each key given replaces its field, and the others stay |
| `OrderModel.MergeShippingLaws` | backend/models/Order.js:306 | merging an empty update changes nothing, and merging the same update twice equals merging it once |
| `OrderModel.ReturnWindowCases` | backend/models/Order.js:351-353 | the window is 2 592 000 000 ms; it expires only when the delivery date is known and strictly more than that lies between it and now |
| `OrderModel.WindowExpired` | backend/models/Order.js:351-353 | the return-window test; a predicate with no ensures: `ReturnWindowCases` states when it holds |
| `OrderModel.ReturnDecision` | backend/models/Order.js:345-361 | NotDelivered iff the status is not delivered; ReturnWindowExpired iff delivered and the window expired; otherwise a pending request with the reason |
| `OrderModel.Order.constructor` | backend/models/Order.js:3-214 | a new unsaved order: pending, with no history, a pending payment and standard shipping; the billing address's sameAsShipping is the given flag, true when it is omitted |
| `OrderModel.Order.SetStatus` | backend/models/Order.js:338 | assigning the status marks it modified when the value changes |
| `OrderModel.Order.Save` | backend/models/Order.js:245-283 | a new order gets `OrderNumber`; the history gains `HookEntries`; billing becomes `BillingAfterSave` |
| `OrderModel.Order.AddStatusHistory` | backend/models/Order.js:293-302 | the status is set and the history gains exactly `TransitionEntries`; earlier entries are kept |
| `OrderModel.Order.CancelOrder` | backend/models/Order.js:333-342 | a shipped or delivered order fails and nothing changes; otherwise the status is cancelled and the history gains the note's entries |
| `OrderModel.Order.ProcessPayment` | backend/models/Order.js:318-330 | the payment is completed with the ids and paidAt; a pending order is confirmed and recorded; any other status is unchanged |
| `OrderModel.Order.UpdateShipping` | backend/models/Order.js:305-315 | the fields are merged; a processing order given a tracking number is shipped with shippedAt stamped and recorded; any other status is unchanged |
| `OrderModel.Order.RequestReturn` | backend/models/Order.js:345-364 | the errors of `ReturnDecision` change nothing; otherwise the return request is replaced and no status field changes |
| `OrderModel.Order.CalculateTotal` | backend/models/Order.js:286-290 | the loop sets subtotal to the sum of line totals and total to subtotal + shipping + tax − discount, and returns the total |
| `ReviewModel.Utf16Length` | backend/models/Review.js:24-33 | `String.length`, which `maxlength` compares: at least the number of characters and at most twice it |
| `ReviewModel.Utf16LengthBmp` | backend/models/Review.js:24-33 | a string of characters up to U+FFFF has as many code units as characters |
| `ReviewModel.Utf16LengthAstral` | backend/models/Review.js:24-33 | a string of characters beyond U+FFFF counts two code units per character |
| `ReviewModel.AstralTitleLimit` | backend/models/Review.js:24-28 | a title made of emoji passes the required and 100-character validators iff it holds 1 to 50 of them |
| `ReviewModel.TextValid` | backend/models/Review.js:24-33 | the required and maxlength validators of title and comment; a predicate with no ensures: `AstralTitleLimit` states a consequence |
| `ReviewModel.FieldsValid` | backend/models/Review.js:18-63 | the rating, title, comment and optional sub-rating validators together; a predicate with no ensures |
| `ReviewModel.WithoutUser` | backend/models/Review.js:164 | the filter keeps exactly the votes of other users |
| `ReviewModel.WithoutUserConcat` | backend/models/Review.js:164 | the filter works vote by vote: the votes of other users keep their order and their repeats |
| `ReviewModel.WithoutUserAbsent` | backend/models/Review.js:164 | a ledger without a vote by the user passes the filter unchanged |
| `ReviewModel.OnlyUserWithout` | backend/models/Review.js:164 | after the filter the user has no votes left, and every other user's votes are as they were |
| `ReviewModel.RecordVoteProjection` | backend/models/Review.js:162-171 | after a vote the user's only entry is that vote, and every other user's votes are unchanged and in order |
| `ReviewModel.RecordVoteKeepsOnePerUser` | backend/models/Review.js:162-171 | the ledger keeps one vote per user, and the new vote is last |
| `ReviewModel.RecordVote` | backend/models/Review.js:162-171 | the ledger after a vote; no ensures of its own: `RecordVoteProjection`, `RecordVoteKeepsOnePerUser` and `RepeatVoteKeepsCounts` state what it does |
| `ReviewModel.CountKind` | backend/models/Review.js:174-175 | a counter never exceeds the size of the ledger |
| `ReviewModel.CountsPartition` | backend/models/Review.js:174-175 | helpful + notHelpful equals the number of votes |
| `ReviewModel.WithoutUserTwice` | backend/models/Review.js:164 | filtering a user out twice equals filtering once |
| `ReviewModel.RepeatVoteKeepsCounts` | backend/models/Review.js:162-177 | repeating the same vote leaves both counters unchanged |
| `ReviewModel.AutoApprove` | backend/models/Review.js:151-159 | the status becomes approved iff it was approved, or pending from a verified purchase; otherwise it is unchanged |
| `ReviewModel.AutoApproveLaws` | backend/models/Review.js:151-159 | a rejected or flagged review is never auto-approved, and a second save changes nothing |
| `ReviewModel.ApprovedAfterSave` | backend/models/Review.js:151-159 | the isApproved the hook leaves; no ensures of its own: `Review.Save` states that it agrees with the status |
| `ReviewModel.Review.constructor` | backend/models/Review.js:64-96 | a new review is pending, unapproved, without votes or flags, with consistent counters |
| `ReviewModel.Review.Save` | backend/models/Review.js:151-159 | the hook applies `AutoApprove` and keeps isApproved consistent with the status |
| `ReviewModel.Review.AddHelpfulVote` | backend/models/Review.js:162-178 | the ledger becomes `RecordVote`, the counters equal the ledger's counts, and one vote per user is kept |
| `ReviewModel.Review.FlagReview` | backend/models/Review.js:181-196 | exactly one flag is appended; from the third on the review is flagged and unapproved; otherwise only the hook acts |
| `ReviewModel.Review.ModerateReview` | backend/models/Review.js:199-207 | the status is set (then the hook runs), the moderation record is stamped, and isApproved holds iff the status is approved |
| `ReviewModel.Review.AddResponse` | backend/models/Review.js:210-218 | the response is replaced; only the hook changes anything else |

## Left out

- Database statics and queries are left out: `getOrCreateCart`, `getPopulatedCart`, `getByUser`, `getByDateRange`, `getSalesStats`, `getFeatured`, `getNewArrivals`, `getByCategory`, `getProductReviews`, `getReviewStats`, `getPendingReviews`. They are Mongo calls. `mergeGuestCart` is modelled from the cart the user already has.
- Quantities and star ratings are whole numbers in the model (`int`). The schema types them as `Number`, so it admits a quantity of 2.5 or a rating of 4.5, and `updateItemQuantity(0.5)` passes the `quantity <= 0` test and then fails the schema's minimum of 1. The lemmas that bound quantities to 1..10 and ratings to 1..5 rely on whole numbers.
- `ProductModel.Product.Save`: the Product schema declares a stored Boolean path `isNew` (`Product.js:139-142`, queried as a new-arrival flag at `Product.js:337`), while the slug hook reads `this.isNew` (`Product.js:227`, `236`), a name Mongoose reserves for "not yet saved". Depending on the Mongoose version the schema is refused or the stored flag hides the document property; in the latter case a new product gets no timestamp suffix and a product flagged as a new arrival gets a fresh timestamped slug on every save. The model reads the hook's `isNew` as "not yet saved" and has no new-arrival flag.
- `CartModel.Cart.MergeGuestCart`: one time `now` stamps every line that the merge pushes and every save it makes. In the source each `addItem` takes its own `new Date()` (`Cart.js:100-111`) and each save its own `new Date()` (`Cart.js:80-85`), so the stamps can differ from step to step.
- `OrderModel.Order.Save`: `orderNumber` is `required: true` (`Order.js:4-8`), and Mongoose validates before the pre-save hook runs. A new order without an order number is rejected before the hook can generate one, so the hook's new-order branch is reached only when the caller supplies a placeholder number. The model does not reject the save in that case.
- Schema validation at save time is not part of `Save`. The validators are separate predicates (`SalePriceValid`, `QuantitiesInRange`, `FieldsValid`), with lemmas about what they guarantee.
- Saves are sequential. A method that calls `addStatusHistory` saves twice without waiting; Mongoose can reject that with a parallel-save error, and the model does not capture this.
- Two checkouts or stock updates that race are not modelled.
- Lower-casing covers ASCII letters only. JavaScript's `toLowerCase` also maps a few non-ASCII letters (the Kelvin sign, the dotted capital I) to ASCII ones, which would then survive the slug filter. It also folds non-ASCII capitals in the colour matching of `getAvailableSizes`, `getStock` and `updateStock` (`Product.js:256`, `270`, `279`): "ÉCRU" matches "écru" in JavaScript but not in the model.
- Floating-point virtuals are left out: `discountPercentage`, `helpfulnessScore`, `orderAge`, `reviewAge`. The rating average is a `real`, so rounding of doubles is not modelled.
- `fullShippingAddress` is a display string and is not modelled.
- Index declarations, `ref`/`populate`, email-notification flags, coupon and notes fields are not modelled. They carry no behaviour.
- `returnRequest.processedAt` and `refundAmount` are fields that no modelled method sets. No core method sets them either.
- `ShippingUpdate` has no way to give a key whose value is `undefined`. With `Object.assign` such a key would clear the field.
- Mongoose's `lowercase: true` setter on `slug` is not applied. The slug it would lower-case is already lower case.
- `GetAvailableSizes`: its own contract states soundness only. Completeness is `AvailableSizesComplete`, and order is `InStockOffersConcat` on the filter it applies.
- `GetStock`: its contract says a non-zero result is the stock of some entry for the colour and size. That it is the FIRST such entry follows from its definition through `FindIndex` and is not restated.
- `Common.TrimStart` and `Common.TrimEnd`: their contracts state only the length bound and the edge character. The full behaviour is their definitions; `TrimIdempotent` is proved from them.
