# Storefront core, modelled in Dafny

This project models the client-side logic of a React storefront: the cart
store and the cart page's pricing hook, the cart line controls and the
checkout form, the product page (quantity and variant panel, image gallery,
related products), product filtering and sorting, the seeded catalogue,
details and review generators, the dropdown and the filter controls, the
assessment progress tracker, the snackbar and e-book stores, the e-book's
drag-and-drop reordering, the login and registration forms, the application
header and the performance monitor.

The model has one Dafny module per source area:
- State the source keeps in a store, a hook or a component becomes a `class`.
  Its methods are specified by pure functions of the old state.
- What the source computes becomes a function.
- What the source promises is proved as lemmas about those functions.
- The shared helpers (`Seqs.Filter`, ASCII case mapping and trimming in
  `Text`, rounding in `Numbers`) are defined once and reused.

Conventions:
- Optional properties of the TypeScript types are `Option`s.
- `NaN` appears only where the source's behaviour depends on it: a typed
  quantity that is not a number, or a missing stock count.
- Randomness, the clock, identifiers from `crypto.randomUUID` and the browser
  APIs are parameters.

Two behaviours of the code that a reader might not expect:
- The cart store never clamps a quantity to the stock count. `addItem`,
  `increaseQty` and the seed data all let a line exceed it; only the cart
  row's controls check stock.
- The page's subtotal ignores line discounts, while the store's
  `getTotalPrice` subtracts them.

## Model

| member | source | states |
|---|---|---|
| CartStore.SameConfigMeansSameKey | src/domain/cart/store/cart.store.ts:6-7 | two configurations match exactly when they give the same line key; an absent configuration matches `{}` |
| CartStore.MatchesMeansSameKey | src/domain/cart/store/cart.store.ts:59-63 | the store's match test on a line is equality of (id, colour, size) keys |
| CartStore.BumpMatching | src/domain/cart/store/cart.store.ts:65-74 | the map step keeps every line's product data and adds the delta to exactly the matching lines |
| CartStore.SafeQty | src/domain/cart/store/cart.store.ts:56 | the quantity added is at least one and at least the requested amount, and is either the request or 1 |
| CartStore.FirstMatch | src/domain/cart/store/cart.store.ts:59-63 | `find` gives the first matching line, or -1 exactly when no line matches |
| CartStore.FirstMatchIgnoresQuantities | src/domain/cart/store/cart.store.ts:59-63 | which line `find` picks does not depend on quantities |
| CartStore.AddItemTo | src/domain/cart/store/cart.store.ts:55-80 | an existing line gains the safe quantity in place; otherwise one new line is appended with it |
| CartStore.RemoveFrom | src/domain/cart/store/cart.store.ts:82-88 | the result holds exactly the lines that do not match |
| CartStore.IncreaseIn | src/domain/cart/store/cart.store.ts:90-98 | the matching lines gain one; all others are unchanged |
| CartStore.DecreaseIn | src/domain/cart/store/cart.store.ts:100-110 | the result is the cart with one taken off every matching line, keeping exactly the lines still above zero, in order and with their data |
| CartStore.AddItemQuantities | src/domain/cart/store/cart.store.ts:55-80 | on a cart with unique lines, only the added line's quantity changes, by the safe quantity; the item total grows by the same amount |
| CartStore.AddItemWellFormed | src/domain/cart/store/cart.store.ts:55-80 | adding keeps lines unique and quantities positive |
| CartStore.RemoveItemQuantities | src/domain/cart/store/cart.store.ts:82-88 | removal zeroes just that line's quantity, keeps the order, and changes nothing when the line is absent |
| CartStore.RemoveItemWellFormed | src/domain/cart/store/cart.store.ts:82-88 | removal keeps the cart well formed |
| CartStore.IncreaseQtyQuantities | src/domain/cart/store/cart.store.ts:90-98 | only the named line gains one, and only when it exists |
| CartStore.IncreaseQtyWellFormed | src/domain/cart/store/cart.store.ts:90-98 | increasing keeps the cart well formed |
| CartStore.DecreaseQtyQuantities | src/domain/cart/store/cart.store.ts:100-110 | only the named line loses one; the line disappears exactly when its quantity was one |
| CartStore.DecreaseQtyWellFormed | src/domain/cart/store/cart.store.ts:100-110 | decreasing keeps the cart well formed |
| CartStore.BumpKeepsOthers | src/domain/cart/store/cart.store.ts:65-74 | changing the quantity of matching lines leaves every other line, in order |
| CartStore.AddItemKeepsOthers | src/domain/cart/store/cart.store.ts:55-80 | adding an item leaves every line of another key, in order |
| CartStore.DecreaseKeepsOthers | src/domain/cart/store/cart.store.ts:100-110 | decreasing a line leaves every line of another key, in order |
| CartStore.DecreaseAtOneRemovesLine | src/domain/cart/store/cart.store.ts:100-110 | decreasing a line at one removes it from the cart |
| CartStore.AddItemIgnoresStock | src/domain/cart/store/cart.store.ts:55-80 | the store adds five of an item with only two in stock |
| CartStore.ClearedCartTotals | src/domain/cart/store/cart.store.ts:112-122 | an empty cart counts zero items worth zero |
| CartStore.SeedFacts | src/domain/cart/store/cart.store.ts:13-54 | the seed cart is well formed, with seven items worth 1039.93 |
| CartStore.Cart.constructor | src/domain/cart/store/cart.store.ts:13-54 | the store starts with the four seed lines |
| CartStore.Cart.AddItem | src/domain/cart/store/cart.store.ts:55-80 | the new lines are `AddItemTo` of the old, and a well-formed cart stays well formed |
| CartStore.Cart.RemoveItem | src/domain/cart/store/cart.store.ts:82-88 | the new lines are `RemoveFrom` of the old, and the cart stays well formed |
| CartStore.Cart.IncreaseQty | src/domain/cart/store/cart.store.ts:90-98 | the new lines are `IncreaseIn` of the old, and the cart stays well formed |
| CartStore.Cart.DecreaseQty | src/domain/cart/store/cart.store.ts:100-110 | the new lines are `DecreaseIn` of the old, and the cart stays well formed |
| CartStore.Cart.ClearCart | src/domain/cart/store/cart.store.ts:112 | the cart becomes empty |
| CartStore.Cart.GetTotalItems | src/domain/cart/store/cart.store.ts:114-115 | returns the sum of the quantities |
| CartStore.Cart.GetTotalPrice | src/domain/cart/store/cart.store.ts:117-122 | returns the sum of the discounted line prices |
| CartStore.TotalItemsBounds | src/domain/cart/store/cart.store.ts:114-115 | the item count is never negative when no quantity is, and is at least the number of lines when every line holds a unit |
| CartMapper.MapProductToCartItem | src/domain/cart/mappers/cart.mapper.ts:4-18 | the line copies the product's id, name, category, price, discount and stock flags and carries the configuration unchanged; it shows the first gallery image, or the catalogue image when there is none |
| CartMapper.MappedItemsMergeIffSameConfig | src/domain/cart/mappers/cart.mapper.ts:4-18 | adding one product twice makes one line with both quantities exactly when the configurations match, else two lines |
| CartHook.Shipping | src/features/cart/hooks/useCart.ts:30-33 | shipping is free exactly above a subtotal of 50, else the flat rate |
| CartHook.Subtotal | src/features/cart/hooks/useCart.ts:24-26 | the undiscounted sum of price times quantity is never negative for non-negative prices and quantities |
| CartHook.LineDiscounts | src/domain/cart/store/cart.store.ts:117-122 | the per-line discounts the store subtracts are never negative for non-negative discounts and quantities |
| CartHook.Tax | src/features/cart/hooks/useCart.ts:28 | the tax lies between zero and the subtotal, and is positive for a positive subtotal |
| CartHook.Discount | src/features/cart/hooks/useCart.ts:35-45 | no coupon or an unknown one gives no discount; a known one gives at most a fifth of the subtotal, or the shipping fee |
| CartHook.Total | src/features/cart/hooks/useCart.ts:47-49 | without a discount the total is the subtotal with eight percent tax plus shipping |
| CartHook.StoreTotalIsSubtotalLessDiscounts | src/features/cart/hooks/useCart.ts:24-26 | the store's total is the page subtotal less the per-line discounts |
| CartHook.StoreAndHookDisagreeOnDiscountedLine | src/features/cart/hooks/useCart.ts:24-26 | for a line of 100 with discount 10, the store says 90 and the page subtotal says 100 |
| CartHook.CouponTotals | src/features/cart/hooks/useCart.ts:35-49 | for every cart, the grand total for each coupon on either side of its threshold |
| CartHook.TotalBounds | src/features/cart/hooks/useCart.ts:35-49 | a coupon never makes the total negative nor larger than without one |
| CartHook.BuildCartKeyFollowsIdentity | src/features/cart/hooks/useCart.ts:19-22 | lines of the same identity get the same list key |
| CartHook.BuildCartKey | src/features/cart/hooks/useCart.ts:19-22 | the key starts with the line's id followed by a dash |
| CartHook.BuildCartKeyCollisions | src/features/cart/hooks/useCart.ts:19-22 | distinct lines can share a list key: a dash in an id or colour, or an empty colour |
| CartHook.UpdateQuantityStep | src/features/cart/hooks/useCart.ts:58-76 | updating moves the line one step towards the typed value, leaves the other lines alone and keeps the cart well formed |
| CartHook.UpdateQuantityIn | src/features/cart/hooks/useCart.ts:58-76 | without a matching line nothing changes; every resulting line is an old line or a matching one |
| CartHook.ApplyCouponIgnoresCase | src/features/cart/hooks/useCart.ts:78-86 | codes are recognised in any letter case; unknown codes are rejected |
| CartHook.CartPage.constructor | src/features/cart/hooks/useCart.ts:14-16 | no code typed or applied, and checkout closed |
| CartHook.CartPage.SetCouponCode | src/features/cart/hooks/useCart.ts:14 | only the typed code changes |
| CartHook.CartPage.ApplyCoupon | src/features/cart/hooks/useCart.ts:78-86 | the upper-cased code is applied when known; otherwise an alert is raised and the applied coupon is kept |
| CartHook.CartPage.SetCheckoutOpen | src/features/cart/hooks/useCart.ts:16 | only the checkout flag changes |
| CartHook.CartPage.UpdateQuantity | src/features/cart/hooks/useCart.ts:58-76 | the store's lines become `UpdateQuantityIn` of the old |
| CartItemRow.StockFlagsAgree | src/features/cart/components/CartItemRow.tsx:42 | plus is disabled exactly when the low-stock note shows zero or less; without a stock count there is neither |
| CartItemRow.LowStockNoteCanBeNegative | src/features/cart/components/CartItemRow.tsx:228-232 | a line over its stock shows "Only -3 left" |
| CartItemRow.LowStockNote | src/features/cart/components/CartItemRow.tsx:228-232 | the note shows exactly when there is a stock count at most three above the quantity, and then the count plus the quantity is the stock |
| CartItemRow.AsWrittenTarget | src/features/cart/components/CartItemRow.tsx:64-82 | the clamped target is the smaller of the value and the stock, and is missing (`NaN`) without a stock count |
| CartItemRow.IntendedTarget | src/features/cart/components/CartItemRow.tsx:64-82 | the target is clamped to the stock when there is one, else it is the typed value |
| CartItemRow.TargetsAgreeWithStock | src/features/cart/components/CartItemRow.tsx:64-82 | the two targets agree exactly when the line has a stock count |
| CartItemRow.SeedLineIgnoresTypedQuantity | src/features/cart/components/CartItemRow.tsx:68 | on a seed line, typing 5 changes nothing, where the intended target is 5 |
| CartItemRow.StepTo | src/features/cart/components/CartItemRow.tsx:70-81 | by `addItem` or repeated `decreaseQty`, the line reaches the target, the other lines stay the same objects in the same order, the row's line keeps its product data, and the cart stays well formed |
| CartItemRow.RaiseTo | src/features/cart/components/CartItemRow.tsx:70-78 | one `addItem` of the difference raises the line to the target and leaves the other lines as they were |
| CartItemRow.LowerTo | src/features/cart/components/CartItemRow.tsx:70-81 | the `decreaseQty` loop lowers the line to the target and leaves the other lines as they were |
| CartItemRow.DecreaseStep | src/features/cart/components/CartItemRow.tsx:79-81 | one decrease of the row's line takes one off it, keeps the other lines and the line's product data |
| CartItemRow.HandleQuantityChange | src/features/cart/components/CartItemRow.tsx:64-82 | as written: no change for a bad value or a missing stock count, else the line is set to the clamped target; the other lines and the line's product data are kept |
| CartItemRow.HandleQuantityChangeIntended | src/features/cart/components/CartItemRow.tsx:64-82 | corrected: every positive value sets the line to the intended target; the other lines and the line's product data are kept |
| CartItemRow.AutoIncrementStopsAtStock | src/features/cart/components/CartItemRow.tsx:96-116 | n ticks from a line at q with stock s leave it at min(q + n, s) (a line already above s keeps q; without a stock count, q + n); the timer stops exactly when n > 0 and q + n > s |
| CartItemRow.IncreasingTick | src/features/cart/components/CartItemRow.tsx:96-116 | one tick adds one to the same line and keeps the cart well formed |
| CartItemRow.TickInSpec | src/features/cart/components/CartItemRow.tsx:96-116 | a tick stops the timer exactly when the line is at its stock count and then changes nothing; otherwise it adds one to the line, and with no line it changes nothing |
| CartItemRow.RunFrom | src/features/cart/components/CartItemRow.tsx:96-116 | from a line at q, n ticks leave that line at the saturated quantity, and stop exactly when the stock is passed |
| CartItemRow.RowQuantity | src/features/cart/components/CartItemRow.tsx:96-116 | the quantity of the row's key in a well-formed cart is the quantity of its line |
| CartItemRow.RunKeepsWellFormed | src/features/cart/components/CartItemRow.tsx:96-116 | any number of ticks keeps the cart well formed |
| CartItemRow.AutoIncrement.constructor | src/features/cart/components/CartItemRow.tsx:86-119 | no timer and not running |
| CartItemRow.AutoIncrement.Toggle | src/features/cart/components/CartItemRow.tsx:86-119 | stops a running timer; starts one only when the line is below its stock |
| CartItemRow.AutoIncrement.Tick | src/features/cart/components/CartItemRow.tsx:96-116 | a tick performs `TickIn` and clears the running flag when it stops |
| CheckoutModal.MessagesDistinct | src/features/cart/components/CheckoutModal.tsx:37-48 | every field has its own message |
| CheckoutModal.Message | src/features/cart/components/CheckoutModal.tsx:37-48 | every message is a non-empty sentence ending in a full stop |
| CheckoutModal.RequiredErrors | src/features/cart/components/CheckoutModal.tsx:71-88 | errors exist exactly for the empty fields, each with that field's message |
| CheckoutModal.ValidIffAllFilled | src/features/cart/components/CheckoutModal.tsx:71-88 | the form validates exactly when every field is filled |
| CheckoutModal.EmptyFormIsBlank | src/features/cart/components/CheckoutModal.tsx:53-64 | the initial form has all ten fields, all empty |
| CheckoutModal.ChangeThenValidateClearsField | src/features/cart/components/CheckoutModal.tsx:92-98 | after typing a non-empty value, that field reports no error |
| CheckoutModal.EmptyFormReportsEveryField | src/features/cart/components/CheckoutModal.tsx:71-88 | an empty form reports all ten messages |
| CheckoutModal.CheckoutForm.constructor | src/features/cart/components/CheckoutModal.tsx:53-67 | every field empty, no errors, not submitting |
| CheckoutModal.CheckoutForm.ValidateForm | src/features/cart/components/CheckoutModal.tsx:71-88 | the errors become `RequiredErrors` of the data; the result says there are none |
| CheckoutModal.CheckoutForm.HandleChange | src/features/cart/components/CheckoutModal.tsx:92-98 | stores the value; blanks the field's error only when it had one |
| CheckoutModal.CheckoutForm.HandleSubmit | src/features/cart/components/CheckoutModal.tsx:100-123 | places the order exactly when no field is empty, and ends not submitting |
| ProductConfiguration.Cap | src/features/products/components/ProductDetails/ProductConfiguration.tsx:32 | the cap is the stock count, or 1 when that is zero |
| ProductConfiguration.Incremented | src/features/products/components/ProductDetails/ProductConfiguration.tsx:46-48 | below the cap plus adds one; it never passes the cap nor lowers the quantity |
| ProductConfiguration.Decremented | src/features/products/components/ProductDetails/ProductConfiguration.tsx:50-52 | minus subtracts one down to 1, and never goes below 1 |
| ProductConfiguration.Entered | src/features/products/components/ProductDetails/ProductConfiguration.tsx:148-153 | an entry in range keeps the quantity in range; any change is the typed number; `NaN` changes nothing |
| ProductConfiguration.QuantityStaysInRange | src/features/products/components/ProductDetails/ProductConfiguration.tsx:46-52 | any sequence of plus, minus and typed entries keeps the quantity between 1 and the cap |
| ProductConfiguration.IncrementsSaturate | src/features/products/components/ProductDetails/ProductConfiguration.tsx:46-48 | n presses of plus give min(q + n, cap) |
| ProductConfiguration.IncrementDecrementInverse | src/features/products/components/ProductDetails/ProductConfiguration.tsx:46-52 | plus then minus, and minus then plus, restore the quantity away from the bounds |
| ProductConfiguration.First | src/features/products/components/ProductDetails/ProductConfiguration.tsx:36-42 | the default choice is the first offered value, absent when none is offered |
| ProductConfiguration.DisabledButtonsAreNoOps | src/features/products/components/ProductDetails/ProductConfiguration.tsx:137-160 | a button is disabled exactly when pressing it would not change the quantity |
| ProductConfiguration.StockLabel | src/features/products/components/ProductDetails/ProductConfiguration.tsx:168-170 | "Out of stock" shows exactly at a stock count of zero |
| ProductConfiguration.Configurator.constructor | src/features/products/components/ProductDetails/ProductConfiguration.tsx:36-42 | quantity 1, with the first colour and size selected |
| ProductConfiguration.Configurator.IncrementQuantity | src/features/products/components/ProductDetails/ProductConfiguration.tsx:46-48 | the quantity grows by one up to the cap; the panel stays valid |
| ProductConfiguration.Configurator.DecrementQuantity | src/features/products/components/ProductDetails/ProductConfiguration.tsx:50-52 | the quantity shrinks by one down to 1; the panel stays valid |
| ProductConfiguration.Configurator.EnterQuantity | src/features/products/components/ProductDetails/ProductConfiguration.tsx:148-153 | a typed number in [1, cap] is taken; anything else is ignored |
| ProductConfiguration.Configurator.SelectColor | src/features/products/components/ProductDetails/ProductConfiguration.tsx:81 | the clicked colour becomes the selection |
| ProductConfiguration.Configurator.SelectSize | src/features/products/components/ProductDetails/ProductConfiguration.tsx:110 | the clicked size becomes the selection |
| ProductConfiguration.Configurator.HandleAddToCart | src/features/products/components/ProductDetails/ProductConfiguration.tsx:56-65 | emits the product, quantity and choices exactly when it is in stock |
| ImageGallery.SafeIndex | src/features/products/components/ProductDetails/ProductImageGallery.tsx:31 | the shown index is always in range, and is the selection when that is in range |
| ImageGallery.NextIndex | src/features/products/components/ProductDetails/ProductImageGallery.tsx:37-40 | next stays in range |
| ImageGallery.PrevIndex | src/features/products/components/ProductDetails/ProductImageGallery.tsx:42-45 | previous stays in range |
| ImageGallery.NextPrevInverse | src/features/products/components/ProductDetails/ProductImageGallery.tsx:37-45 | next and previous undo each other |
| ImageGallery.NextTimesWraps | src/features/products/components/ProductDetails/ProductImageGallery.tsx:37-40 | n presses of next land on (i + n) mod count |
| ImageGallery.FullTurn | src/features/products/components/ProductDetails/ProductImageGallery.tsx:37-40 | pressing next once per image returns to the start |
| ImageGallery.Gallery.constructor | src/features/products/components/ProductDetails/ProductImageGallery.tsx:26 | the first image is selected |
| ImageGallery.Gallery.CurrentImage | src/features/products/components/ProductDetails/ProductImageGallery.tsx:33-34 | an image of the gallery, missing only when it is empty; it is the selected one when that is in range |
| ImageGallery.Gallery.NextImage | src/features/products/components/ProductDetails/ProductImageGallery.tsx:37-40 | the selection becomes `NextIndex` of the old |
| ImageGallery.Gallery.PrevImage | src/features/products/components/ProductDetails/ProductImageGallery.tsx:42-45 | the selection becomes `PrevIndex` of the old |
| ImageGallery.Gallery.SelectThumbnail | src/features/products/components/ProductDetails/ProductImageGallery.tsx:103 | the clicked thumbnail becomes the selection |
| ProductFilter.FilterProductsSpec | src/domain/products/services/product.filter.ts:3-23 | the result is exactly the matching products, in order; filtering again changes nothing |
| ProductFilter.DefaultFiltersKeepAll | src/features/dashboard/hooks/useFilteredProducts.ts:5-35 | the dashboard's initial filters keep every product |
| ProductFilter.EmptyPriceRangeKeepsNothing | src/domain/products/services/product.filter.ts:3-23 | a minimum above the maximum keeps nothing |
| PageFilter.PageFilterExtendsDomainFilter | src/features/products/hooks/useFilteredProduct.ts:11-54 | without the page's extra criteria, the page filter equals the domain filter |
| PageFilter.EmptyCategoryDiffers | src/features/products/hooks/useFilteredProduct.ts:11-54 | an empty category keeps a product the domain filter drops |
| PageFilter.RatingBoundRefines | src/features/products/hooks/useFilteredProduct.ts:11-54 | the rating bound filters the result obtained without it |
| PageFilter.DefaultPageFiltersKeepAll | src/features/products/hooks/useProductsFilterState.ts:4-11 | the default page filters keep every product |
| ProductsSorting.BeforeTotal | src/features/products/hooks/useProductsSorting.ts:19-34 | every comparator orders any two products one way or the other |
| ProductsSorting.BeforeTransitive | src/features/products/hooks/useProductsSorting.ts:19-34 | every comparator is transitive |
| ProductsSorting.Insert | src/features/products/hooks/useProductsSorting.ts:19-34 | inserting adds exactly one product |
| ProductsSorting.SortProducts | src/features/products/hooks/useProductsSorting.ts:19-34 | sorting is a permutation of its input |
| ProductsSorting.InsertSorted | src/features/products/hooks/useProductsSorting.ts:19-34 | inserting into a sorted list keeps it sorted |
| ProductsSorting.SortProductsSorted | src/features/products/hooks/useProductsSorting.ts:19-34 | the result is sorted by the chosen option |
| ProductsSorting.SortedPairwise | src/features/products/hooks/useProductsSorting.ts:19-34 | in a sorted list, every earlier product may precede every later one |
| ProductsSorting.SortSortedIsIdentity | src/features/products/hooks/useProductsSorting.ts:19-34 | a list that is already sorted is left unchanged |
| ProductsSorting.SortIdempotent | src/features/products/hooks/useProductsSorting.ts:19-34 | sorting twice equals sorting once |
| FilterState.Merge | src/features/products/hooks/useProductsFilterState.ts:16-18 | each supplied field replaces the old one; the others are kept |
| FilterState.MergeNoChange | src/features/products/hooks/useProductsFilterState.ts:16-18 | an empty update changes nothing |
| FilterState.MergeIdempotent | src/features/products/hooks/useProductsFilterState.ts:16-18 | applying an update twice equals applying it once |
| FilterState.MergeFullReplaces | src/features/products/hooks/useProductsFilterState.ts:16-18 | an update that supplies every field replaces the filters |
| FilterState.FiltersState.constructor | src/features/products/hooks/useProductsFilterState.ts:4-11 | starts from the default filters |
| FilterState.FiltersState.UpdateFilters | src/features/products/hooks/useProductsFilterState.ts:16-18 | the filters become `Merge` of the old |
| FilterState.FiltersState.ResetFilters | src/features/products/hooks/useProductsFilterState.ts:20-22 | the filters return to the defaults |
| ProductGenerator.GenerateProducts | src/domain/products/services/product.generator.ts:12-28 | exactly `count` products, the i-th built from index i |
| ProductGenerator.MakeProduct | src/domain/products/services/product.generator.ts:13-27 | price in [10, 510], rating in [3, 5], new exactly at every 50th index, the cycled category, and a name that starts with the cycled base name |
| ProductGenerator.GeneratedIdsUnique | src/domain/products/services/product.generator.ts:18 | generated ids are pairwise distinct |
| ProductGenerator.GeneratedProductFacts | src/domain/products/services/product.generator.ts:12-28 | price in [10, 510] and rating in [3, 5]; new exactly at every 50th index; cycling categories and names |
| RatingGenerator.GenerateRating | src/domain/products/utils/rating.generator.ts:3-14 | rating in [3, 5] and review count in [50, 1549] |
| DetailsGenerator.GenerateProductDetails | src/domain/products/services/productDetails.generator.ts:7-56 | keeps the product with its generated rating and review count, and has five images |
| DetailsGenerator.DetailsFacts | src/domain/products/services/productDetails.generator.ts:10-41 | the sku, a discount of 18 to 29 or none, in stock iff rand > 0.2, stock 0-99, a prefix of the colours, all sizes |
| DetailsGenerator.DetailsImages | src/domain/products/services/productDetails.generator.ts:31-34 | image i has the seeded URL and the alt text "name image i+1" |
| DetailsGenerator.WeightText | src/domain/products/services/productDetails.generator.ts:51 | the weight text ends in " kg" |
| ReviewsGenerator.GenerateProductReviews | src/domain/products/services/productReviews.generator.ts:33-82 | three to eight reviews, with the summary's average and total |
| ReviewsGenerator.ReviewFacts | src/domain/products/services/productReviews.generator.ts:42-70 | review i: id i+1, cycled author, title and text, rating 3 or 4, verified iff r > 0.3, at most one image (exactly when r > 0.6) |
| ReviewsGenerator.MakeReview | src/domain/products/services/productReviews.generator.ts:42-70 | id index + 1, rating 3 or 4, helpful 0-39, verified iff r > 0.3, one image exactly when r > 0.6 |
| RelatedProducts.RelatedCandidates | src/domain/products/services/relatedProducts.generator.ts:5-16 | every product is eligible and from the input; at most `limit` of them, and a negative `limit` leaves at most that many fewer than the input, as `slice` does |
| RelatedProducts.GetRelatedProducts | src/domain/products/services/relatedProducts.generator.ts:5-16 | the details of each candidate, in order, for every `limit` including a negative one |
| RelatedProducts.UseRelatedProducts | src/features/products/hooks/ProductDetails/useRelatedProducts.ts:5-15 | at most four related products |
| RelatedProducts.CandidatesArePrefixOfEligible | src/domain/products/services/relatedProducts.generator.ts:5-16 | the candidates are the first eligible products: `limit` of them, all of them when fewer, and for a negative `limit` all but the last `-limit` |
| RelatedProducts.NegativeLimitDropsFromEnd | src/domain/products/services/relatedProducts.generator.ts:14 | example: `slice(0, -1)` over three eligible products keeps the first two |
| Seqs.Take | src/domain/products/services/relatedProducts.generator.ts:14 | `slice(0, n)` keeps the first n elements, all when fewer, and for a negative n all but the last -n |
| RelatedProducts.CurrentProductExcluded | src/domain/products/services/relatedProducts.generator.ts:5-16 | the current product is never related to itself; a given category is respected |
| Select.FilteredOptions | src/components/ui/Select.tsx:107-117 | all options without a search term; otherwise exactly those whose label or value contains it |
| Select.FilteredOptionsInOrder | src/components/ui/Select.tsx:107-117 | the filtered options keep their order |
| Select.FindLabel | src/components/ui/Select.tsx:126-139 | the label of the first option with the value, else the placeholder |
| Select.SelectedLabel | src/components/ui/Select.tsx:126-139 | nothing selected, or a single value no option carries, shows the placeholder |
| Select.MultipleLabel | src/components/ui/Select.tsx:126-139 | the placeholder for none, the label for one, "n selected" for more |
| Select.ToggleValue | src/components/ui/Select.tsx:153-167 | toggling flips the value's membership and keeps every other value's |
| Select.ToggleTwiceAbsent | src/components/ui/Select.tsx:153-167 | toggling an absent value twice restores the list |
| Select.ToggleTwicePresent | src/components/ui/Select.tsx:153-167 | toggling a present value twice moves it to the end |
| Select.SelectOptionEmit | src/components/ui/Select.tsx:153-167 | a disabled option emits nothing; the others emit a value of the right mode |
| Select.SelectOptionEffect | src/components/ui/Select.tsx:153-167 | in multiple mode only the picked value's selection flips; in single mode the picked value alone is selected |
| Select.ClearValue | src/components/ui/Select.tsx:169-172 | clearing gives a value of the right mode with nothing selected |
| Select.ClearShowsPlaceholder | src/components/ui/Select.tsx:169-172 | after clearing, the placeholder is shown |
| Select.SelectState.constructor | src/components/ui/Select.tsx:74-75 | closed, with an empty search |
| Select.SelectState.Toggle | src/components/ui/Select.tsx:145-151 | when enabled, opens or closes and reports the new state; disabled, does nothing |
| Select.SelectState.Pick | src/components/ui/Select.tsx:153-167 | emits `SelectOptionEmit`; a single-mode pick closes the list |
| Select.SelectState.Close | src/components/ui/Select.tsx:82-96 | an outside click or Escape closes the list |
| Select.SelectState.SetSearch | src/components/ui/Select.tsx:234 | only the search term changes |
| FilterToolbar.ParseNumber | src/pages/dashboard/components/FilterToolbar.tsx:53-54 | no bound exactly for a blank input, else `Number` of it |
| FilterToolbar.BlankPriceIsNoBound | src/pages/dashboard/components/FilterToolbar.tsx:53-54 | leading blanks do not change whether there is a bound |
| FilterToolbar.ResetEmitsDefaults | src/pages/dashboard/components/FilterToolbar.tsx:77-82 | after a reset the toolbar emits the default filters |
| FilterToolbar.CategoryOption | src/pages/dashboard/components/FilterToolbar.tsx:65-74 | each category is offered with a capitalised label |
| FilterToolbar.CategoryOptions | src/pages/dashboard/components/FilterToolbar.tsx:65-74 | "All Categories" first, then one option per category in order |
| FilterToolbar.Toolbar.constructor | src/pages/dashboard/components/FilterToolbar.tsx:31-34 | empty search and prices, category "all" |
| FilterToolbar.Toolbar.Emitted | src/pages/dashboard/components/FilterToolbar.tsx:56-61 | the emitted filters carry the typed fields, with prices parsed |
| FilterToolbar.Toolbar.HandleReset | src/pages/dashboard/components/FilterToolbar.tsx:77-82 | every field returns to its initial value |
| SidebarFilters.Update | src/features/products/components/ProductsSidebarFilters.tsx:43-45 | supplied fields replace the old ones |
| SidebarFilters.ResetFilters | src/features/products/components/ProductsSidebarFilters.tsx:47-55 | the reset values |
| SidebarFilters.OnCategoryChange | src/features/products/components/ProductsSidebarFilters.tsx:76 | only the category changes, to "all" when cleared |
| SidebarFilters.OnRatingChange | src/features/products/components/ProductsSidebarFilters.tsx:102 | only the rating bound changes, to none when cleared |
| SidebarFilters.ClearingCategoryGivesAll | src/features/products/components/ProductsSidebarFilters.tsx:76 | clearing the category dropdown selects all categories |
| SidebarFilters.UpdateIdempotent | src/features/products/components/ProductsSidebarFilters.tsx:43-45 | a patch applied twice equals once; an empty patch changes nothing |
| AssessmentProgress.Identify | src/components/ui/AssessmentProgress/AssessmentProgressProvider.tsx:19-30 | the identified count grows by one up to the total |
| AssessmentProgress.Resolve | src/components/ui/AssessmentProgress/AssessmentProgressProvider.tsx:32-43 | the resolved count grows by one up to the total |
| AssessmentProgress.Percentage | src/components/ui/AssessmentProgress/AssessmentProgressProvider.tsx:45-48 | the rounded share resolved: 0 to 100, 100 when all are resolved, 0 when none are |
| AssessmentProgress.PercentageAt | src/components/ui/AssessmentProgress/AssessmentProgressProvider.tsx:45-48 | a percentage exists exactly for a tracked path |
| AssessmentProgress.IndicatorFailsAsWritten | src/components/ui/AssessmentProgress/AssessmentProgressProvider.tsx:5-10 | the product-page entry the indicator reads is not in the initial progress |
| AssessmentProgress.IntendedIndicatorReadsEveryItem | src/components/ui/AssessmentProgress/AssessmentProgressIndicator.tsx:14-30 | with the corrected key, every indicator entry reads 0% |
| AssessmentProgress.MarkTimesCaps | src/components/ui/AssessmentProgress/AssessmentProgressProvider.tsx:19-43 | n identify-and-resolve rounds give min(count + n, total) of each |
| AssessmentProgress.ProductPageCompletesItsEntry | src/features/products/pages/ProductDetailsPage.tsx:82-83 | six rounds on the product page complete its entry at 100% |
| AssessmentProgress.ProgressProvider.constructor | src/components/ui/AssessmentProgress/AssessmentProgressProvider.tsx:5-10 | starts from the corrected initial progress |
| AssessmentProgress.ProgressProvider.MarkProblemIdentified | src/components/ui/AssessmentProgress/AssessmentProgressProvider.tsx:19-30 | only that path's entry changes, by `Identify` |
| AssessmentProgress.ProgressProvider.MarkProblemResolved | src/components/ui/AssessmentProgress/AssessmentProgressProvider.tsx:32-43 | only that path's entry changes, by `Resolve` |
| AssessmentProgress.ProgressProvider.GetProgressPercentage | src/components/ui/AssessmentProgress/AssessmentProgressProvider.tsx:45-48 | each indicator entry has a percentage between 0 and 100 |
| ProgressIndicator.NormalizePath | src/components/ui/AssessmentProgress/AssessmentProgressIndicator.tsx:6-12 | product pages map to the route pattern; other paths are kept |
| ProgressIndicator.Status | src/components/ui/AssessmentProgress/AssessmentProgressIndicator.tsx:42-46 | success exactly at 100, warning between, muted at 0 |
| ProgressIndicator.ActiveItems | src/components/ui/AssessmentProgress/AssessmentProgressIndicator.tsx:33-36 | the product entry is active on the list and on detail pages; the dashboard is not active on the list |
| ProgressIndicator.NonProductItemActiveIff | src/components/ui/AssessmentProgress/AssessmentProgressIndicator.tsx:33-36 | every other entry is active exactly on its own path |
| Snackbar.Removed | src/domain/ui/store/snackbar.store.ts:37-40 | exactly the snackbars with other ids remain |
| Snackbar.RemoveAbsent | src/domain/ui/store/snackbar.store.ts:37-40 | removing an absent id changes nothing |
| Snackbar.ShowThenRemove | src/domain/ui/store/snackbar.store.ts:25-40 | showing a snackbar with a fresh id, then removing it, restores the list |
| Snackbar.RemoveKeepsOrder | src/domain/ui/store/snackbar.store.ts:37-40 | removal keeps the order |
| Snackbar.SnackbarStore.constructor | src/domain/ui/store/snackbar.store.ts:23 | no snackbars |
| Snackbar.SnackbarStore.Show | src/domain/ui/store/snackbar.store.ts:25-35 | appends one snackbar with the fresh id |
| Snackbar.SnackbarStore.Remove | src/domain/ui/store/snackbar.store.ts:37-40 | the list becomes `Removed` of the old |
| EbookBlocks.GetBlockContent | src/pages/ebook/components/BlockRenderer.tsx:17-30 | text blocks give their content (or ""), all other kinds give "" |
| BlockData.BlockAt | src/pages/ebook/utils/blockData.ts:8-175 | block i has id "block-i" and the kind of position i mod 15 |
| BlockData.GenerateLargeBlockData | src/pages/ebook/utils/blockData.ts:8-175 | `count` blocks, the i-th being `BlockAt(i)` |
| BlockData.BlockIdsUnique | src/pages/ebook/utils/blockData.ts:8-175 | block ids are distinct |
| BlockData.BlockContents | src/pages/ebook/utils/blockData.ts:8-175 | chapter headings are numbered; only buttons carry the handler; tables have three columns |
| EbookStore.UpdatedBlocks | src/domain/ebook/store/ebook.store.ts:26-30 | blocks with the id get the new content; the others are unchanged |
| EbookStore.UpdateKeepsShape | src/domain/ebook/store/ebook.store.ts:26-30 | updates keep ids and kinds, and a text block then shows the new content |
| EbookStore.SavingUntouchedImageDraftClearsUrl | src/domain/ebook/store/ebook.store.ts:26-30 | saving an image block's untouched draft replaces its URL with "" |
| EbookStore.Store.constructor | src/domain/ebook/store/ebook.store.ts:17-18 | no blocks and nothing being edited |
| EbookStore.Store.SetBlocks | src/domain/ebook/store/ebook.store.ts:20 | replaces the blocks |
| EbookStore.Store.StartEditing | src/domain/ebook/store/ebook.store.ts:22 | the block becomes the one being edited |
| EbookStore.Store.CancelEditing | src/domain/ebook/store/ebook.store.ts:24 | nothing is being edited |
| EbookStore.Store.UpdateBlock | src/domain/ebook/store/ebook.store.ts:26-30 | the blocks become `UpdatedBlocks` of the old, and editing ends |
| EbookPage.FindIndex | src/pages/ebook/index.tsx:35-46 | the first index with the id, or -1 exactly when there is none |
| EbookPage.RemoveAt | src/pages/ebook/index.tsx:35-46 | the splice removes exactly that element |
| EbookPage.InsertAt | src/pages/ebook/index.tsx:35-46 | the splice inserts the element there; removing it again gives the original |
| EbookPage.Moved | src/pages/ebook/index.tsx:35-46 | a permutation with the dragged block at the target's index, and otherwise the same order |
| EbookPage.HandleDrop | src/pages/ebook/index.tsx:33-49 | dropping a block on itself or on an unknown id changes nothing; otherwise the blocks become `Moved` |
| EbookPage.DropFacts | src/pages/ebook/index.tsx:33-49 | after a drop the dragged block sits at the target's former index, with nothing lost or duplicated |
| BlockRenderer.BlockView.constructor | src/pages/ebook/components/BlockRenderer.tsx:42-47 | the draft starts as the block's content |
| BlockRenderer.BlockView.Type | src/pages/ebook/components/BlockRenderer.tsx:76 | the draft becomes the typed text |
| BlockRenderer.BlockView.Save | src/pages/ebook/components/BlockRenderer.tsx:85 | saving submits the draft |
| BlockRenderer.BlockView.HandleCopy | src/pages/ebook/components/BlockRenderer.tsx:51-66 | copies the block's content, sets the copied flag and shows a success snackbar |
| BlockRenderer.BlockView.CopyTimerExpired | src/pages/ebook/components/BlockRenderer.tsx:51-66 | the copied flag is cleared |
| AuthRules.PatternNeedsText | src/features/auth/components/LoginForm.tsx:31-47 | any address that matches the pattern has at least five characters |
| AuthRules.DemoEmailMatches | src/features/auth/components/LoginForm.tsx:55-59 | the demo address matches the email pattern |
| AuthRules.EmailError | src/features/auth/components/LoginForm.tsx:31-47 | no email error exactly when the pattern matches |
| LoginForm.PasswordError | src/features/auth/components/LoginForm.tsx:31-47 | no password error exactly at six UTF-16 code units or more |
| LoginForm.AstralPasswordPasses | src/features/auth/components/LoginForm.tsx:31-47 | example: three emoji are six code units and pass the length rule |
| LoginForm.ValidateLoginForm | src/features/auth/components/LoginForm.tsx:31-47 | the form is error-free exactly when the email matches and the password is long enough |
| LoginForm.DemoCredentialsValidate | src/features/auth/components/LoginForm.tsx:55-59 | the demo credentials pass validation |
| LoginForm.Login.constructor | src/features/auth/components/LoginForm.tsx:55-59 | starts with the demo email prefilled and no errors |
| LoginForm.Login.SubmitForm | src/features/auth/components/LoginForm.tsx:68-94 | starts loading exactly when the form validates, capturing the submitted email, password and remember flag; otherwise shows the errors |
| LoginForm.Login.CompleteLogin | src/features/auth/components/LoginForm.tsx:79-93 | for a pending submission, succeeds exactly when the values captured at submit are the demo credentials, whatever was typed since; a failure sets the submit error and shows an error snackbar |
| LoginForm.SubmitDemoCredentials | src/features/auth/components/LoginForm.tsx:66-77 | Example: a fresh form with the demo password typed in starts loading with the demo credentials pending |
| LoginForm.EditDuringWaitStillSignsIn | src/features/auth/components/LoginForm.tsx:66-93 | Example: whatever the password is changed to while the request waits, the submitted demo credentials sign in |
| LoginForm.Login.HandleKeyDown | src/features/auth/components/LoginForm.tsx:105-110 | Enter submits only when both fields are non-empty |
| RegisterForm.StrengthLabel | src/features/auth/hooks/useRegisterForm.ts:50-58 | weak below 6 characters, medium below 10, strong from 10 |
| RegisterForm.MeterMatchesLabel | src/features/auth/components/RegisterForm.tsx:24-34 | the meter's colour and width agree with the strength label |
| RegisterForm.Set | src/features/auth/hooks/useRegisterForm.ts:92-102 | only the named field changes |
| RegisterForm.FullNameError | src/features/auth/hooks/useRegisterForm.ts:104-139 | no error exactly when the trimmed name has three UTF-16 code units or more |
| RegisterForm.PasswordError | src/features/auth/hooks/useRegisterForm.ts:104-139 | no error exactly for eight UTF-16 code units or more with a lower-case letter, an upper-case letter and a digit |
| RegisterForm.ConfirmError | src/features/auth/hooks/useRegisterForm.ts:104-139 | no error exactly when the confirmation is non-empty and equals the password |
| RegisterForm.ValidateForm | src/features/auth/hooks/useRegisterForm.ts:104-139 | there is an error for each failing rule and for nothing else, and every message is non-empty |
| RegisterForm.ValidIffAllRulesHold | src/features/auth/hooks/useRegisterForm.ts:104-139 | the form is valid exactly when every rule holds and the terms are accepted |
| RegisterForm.EditKeepsOtherErrors | src/features/auth/hooks/useRegisterForm.ts:92-102 | editing a field keeps every other error |
| RegisterForm.Register.constructor | src/features/auth/hooks/useRegisterForm.ts:31-39 | an empty form, terms not accepted, no errors |
| RegisterForm.Register.HandleInputChange | src/features/auth/hooks/useRegisterForm.ts:92-102 | stores the value and drops that field's error |
| RegisterForm.Register.SetAcceptTerms | src/features/auth/hooks/useRegisterForm.ts:37 | only the terms flag changes |
| RegisterForm.Register.SubmitForm | src/features/auth/hooks/useRegisterForm.ts:141-170 | starts loading exactly when the form validates, capturing the submitted form data; otherwise shows the errors |
| RegisterForm.Register.CompleteRegistration | src/features/auth/hooks/useRegisterForm.ts:141-170 | for a pending submission, registration is refused exactly when the email captured at submit is the demo address, with a submit error and an error snackbar; otherwise the captured name and email are registered |
| RegisterForm.EditDuringWaitKeepsSubmittedData | src/features/auth/hooks/useRegisterForm.ts:141-170 | changing the email to the demo address while the request waits still registers the submitted name and email |
| AppHeader.FilteredNavItemsSpec | src/components/ui/AppHeader.tsx:38-43 | "Account" is hidden exactly when signed in; the order is kept |
| AppHeader.FilteredNavItems | src/components/ui/AppHeader.tsx:38-43 | signed in, every entry but "Account"; signed out, the full list |
| AppHeader.SignedInNavItems | src/components/ui/AppHeader.tsx:30-43 | signed in, the navigation is the full list without its fourth entry |
| AppHeader.ProductPagesHighlightProducts | src/components/ui/AppHeader.tsx:53-58 | every page below "/products" highlights Products |
| AppHeader.AtMostOneActive | src/components/ui/AppHeader.tsx:53-58 | at most one navigation entry is highlighted at any location |
| AppHeader.FirstUpper | src/components/ui/AppHeader.tsx:47-49 | the upper-cased first character, or "" |
| AppHeader.NameInitial | src/components/ui/AppHeader.tsx:47-49 | the initial of the full name, else of the email, absent only without either |
| AppHeader.HeaderState.constructor | src/components/ui/AppHeader.tsx:18-20 | all menus and the modal are closed |
| AppHeader.HeaderState.ToggleMobileMenu | src/components/ui/AppHeader.tsx:60-62 | flips the mobile menu |
| AppHeader.HeaderState.ToggleProfileMenu | src/components/ui/AppHeader.tsx:141 | the avatar button flips the profile menu and leaves the other flags alone |
| AppHeader.HeaderState.CloseProfileMenu | src/components/ui/AppHeader.tsx:172 | the profile menu's link closes that menu and leaves the other flags alone |
| AppHeader.HeaderState.CloseMobileMenu | src/components/ui/AppHeader.tsx:217 | a link click closes the mobile menu |
| AppHeader.HeaderState.HandleOutsideClick | src/components/ui/AppHeader.tsx:73-80 | a press outside the profile menu closes it |
| AppHeader.HeaderState.HandleLogout | src/components/ui/AppHeader.tsx:64-69 | closes the profile menu, opens the modal and shows "Logout successful!" |
| PerformanceMonitor.GetMetricStatus | src/components/ui/PerformanceMonitor.tsx:62-69 | success up to the good threshold, warning up to the moderate one, error beyond |
| PerformanceMonitor.StatusColor | src/components/ui/PerformanceMonitor.tsx:12-16 | each status has its own colour class |
| PerformanceMonitor.Severity | src/components/ui/PerformanceMonitor.tsx:62-69 | statuses rank success, warning, error |
| PerformanceMonitor.StatusMonotone | src/components/ui/PerformanceMonitor.tsx:62-69 | a larger value never has a better status |
| PerformanceMonitor.TtfbStatus | src/components/ui/PerformanceMonitor.tsx:71-74 | bands of 100 and 300 ms |
| PerformanceMonitor.TfpStatus | src/components/ui/PerformanceMonitor.tsx:76-79 | bands of 1000 and 2500 ms |
| PerformanceMonitor.Round | src/components/ui/PerformanceMonitor.tsx:48-52 | the nearest integer, halves up |
| PerformanceMonitor.InitialMetricsSucceed | src/components/ui/PerformanceMonitor.tsx:20-24 | the initial zero readings show success |
| PerformanceMonitor.Monitor.constructor | src/components/ui/PerformanceMonitor.tsx:19-24 | zero readings, collapsed |
| PerformanceMonitor.Monitor.MeasurePerformance | src/components/ui/PerformanceMonitor.tsx:27-53 | without a navigation entry nothing changes; otherwise rounded TTFB and first paint (0 when missing), stamped now |
| PerformanceMonitor.Monitor.ToggleExpanded | src/components/ui/PerformanceMonitor.tsx:85 | flips the panel |
| Numbers.RoundTo | src/domain/products/services/product.generator.ts:20-22 | rounding to a scale is within half a unit of the value |
| Numbers.RoundToWithin | src/domain/products/services/product.generator.ts:20-22 | rounding keeps a value within integer bounds |
| Numbers.FixedTwo | src/domain/products/services/productDetails.generator.ts:51 | digits with a point before the last two |
| Numbers.FixedTwoInjective | src/domain/products/services/productDetails.generator.ts:51 | different amounts give different texts |
| SeededRandom.OrHalf | src/domain/products/services/productDetails.generator.ts:10-11 | a finite draw is kept; a non-finite one becomes 0.5 |
| Text.Lower | src/domain/products/services/product.filter.ts:9-10 | same length; each letter is lower-cased |
| Text.Upper | src/features/cart/hooks/useCart.ts:79 | same length; each letter is upper-cased |
| Text.TrimEmptyIff | src/features/auth/hooks/useRegisterForm.ts:107 | trimming gives "" exactly for all-blank text |
| Text.Capitalize | src/features/products/components/ProductsSidebarFilters.tsx:31 | the first character upper-cased, the rest unchanged |
| Text.JsLength | src/features/auth/components/LoginForm.tsx:31-47 | `length` counts UTF-16 code units: between the number of characters and twice it, equal to it without characters above U+FFFF, zero only for "" |
| Text.NatToStringInjective | src/domain/products/services/product.generator.ts:18 | distinct numbers print differently |
| Text.PrefixedNumberInjective | src/domain/products/services/product.generator.ts:18 | "product-n" determines n |
| Text.LexLeTotal | src/features/products/hooks/useProductsSorting.ts:33 | the name order compares any two names |
| Text.LexLeTransitive | src/features/products/hooks/useProductsSorting.ts:33 | the name order is transitive |
| Text.LexLeAntisymmetric | src/features/products/hooks/useProductsSorting.ts:33 | names ordered both ways are equal |

## Left out

- RelatedProducts.GetRelatedProducts: the source types `currentProductId` as a string or a number, and a number never equals a string id under `!==`, so nothing would be excluded; the model takes a string id, which is what every caller passes.
- LoginForm.Login.SubmitForm, RegisterForm.Register.SubmitForm: one pending submission is modelled; a second submit while one waits replaces it, a case the login form rules out by disabling its submit button while loading (LoginForm.tsx:195); the registration form's component is not part of this model.
- Timers and intervals are not modelled as time. The auto-increment interval, the login and registration delays, the copied-flag timeout and the checkout's 800 ms wait are each modelled as an explicit step.
- `JSON.stringify` comparison of configurations is modelled as equal colour and equal size (`IsSameConfig`); key order in object literals is not modelled.
- Quantities typed into number inputs are integers or not-a-number; fractional and infinite typed values are not modelled.
- Floating point is modelled as exact reals. `toFixed`, `Math.round` and IEEE-754 rounding errors are not modelled.
- Numbers.RoundTo: round-half-up on exact reals stands in for `toFixed` on doubles.
- Case mapping is ASCII only and whitespace is the ASCII set; Unicode case folding is left out.
- Text.LexLe: `localeCompare` is modelled as lexicographic order on Unicode scalar values, which is not locale collation and agrees with UTF-16 code-unit order only for characters below U+10000.
- Strings are sequences of Unicode scalar values. Every `length` rule uses `Text.JsLength`, which counts UTF-16 code units as JavaScript does. Indexing by position (`charAt(0)` in `AppHeader.FirstUpper` and `AppHeader.NameInitial`) takes a whole character, so the lone surrogate `charAt(0)` returns for a name that starts above U+FFFF is not represented.
- ProductsSorting.SortProducts: the contract states a sorted permutation, not the stability of `Array.prototype.sort`.
- RegisterForm.PasswordError: the regular expression's `.` stops at line terminators; the model checks for the three character classes anywhere, which differs only for passwords containing a newline.
- The persistence middleware of the cart store is not modelled.
- `Math.sin`-based seeded randomness is replaced by a draw parameter returning a fraction in [0, 1).
- `extractSeed` is not part of this model; the seed is a parameter.
- `product.constants` is not part of this model; product names and categories are parameters.
- Identifiers from `crypto.randomUUID` are a `freshId` parameter.
- The Performance API entries and `Date.now` are parameters of `MeasurePerformance`.
- `Number()` parsing of price inputs is a parameter of `ParseNumber`.
- The authentication back end (sign-in, sign-up and sign-out calls) is not modelled; the demo-credential checks the forms make are.
- JSX rendering, styling, icons, routing and dates are not modelled.
- An explicit `undefined` in a partial filter update is modelled as "not supplied".
- The product panel's reset of its selections when the product changes is not modelled.
- The block renderer's draft is not reset on cancel, and the model keeps it too; re-rendering is not modelled.
- The registration form's paste blocking and its validation logging interval are not modelled.
- The login form's error auto-clear timer is not modelled.
- AssessmentProgress.ProgressProvider.MarkProblemIdentified: requires the path to be tracked; on an untracked path the source reads a property of `undefined` and throws.
- AssessmentProgress.ProgressProvider.MarkProblemResolved: requires the path to be tracked, for the same reason.
- CartStore.AddItemTo: the store does not clamp quantities to stock, and neither does the model.

## Findings

| source | as written | input that shows it | evidently intended | confidence | as-written member | corrected member |
|---|---|---|---|---|---|---|
| src/features/cart/components/CartItemRow.tsx:68 | `Math.min(value, item.stockCount)` is `NaN` when the line has no stock count, so the diff is `NaN` and nothing changes | typing 5 on a seed cart line (no `stockCount`) | without a stock count the line is set to the typed quantity | not executed | CartItemRow.SeedLineIgnoresTypedQuantity | CartItemRow.HandleQuantityChangeIntended |
| src/components/ui/AssessmentProgress/AssessmentProgressProvider.tsx:5-10 | the initial progress is keyed "/products", but the indicator and the product page use "/products/:productId", so `progress[path].resolved` reads `undefined` and throws | rendering the progress indicator, or opening a product page | the entry is keyed "/products/:productId" with a total of 6 | not executed | AssessmentProgress.IndicatorFailsAsWritten | AssessmentProgress.IntendedIndicatorReadsEveryItem |
