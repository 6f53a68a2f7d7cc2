# shopeTEL storefront — a Dafny model of its core

shopeTEL is a mobile storefront written in React. This project models the parts of it that
hold logic:

- **The cart store** (`CartContext`). It holds the cart lines, one per product, and offers:
  - adding a product: a new product goes on the end with quantity 1; a product already in the cart gets one more, up to its stock;
  - removing a product;
  - raising or lowering a line's quantity, bounded by the stock above and by 1 below;
  - clearing the cart;
  - the item and price totals.
- **The cart page.** It shows each line and its amount, has the minus and plus buttons, and adds a fixed delivery fee of 50 000 to any non-empty cart. It also holds the remove and clear confirmation dialogs.
- **The catalogue page.** It builds the category list (`all` first, then each category once, in order of first appearance), filters by search term and category, and holds the drawer and dialog state.
- **The product card and the product details page:**
  - the stock badges and the stock label;
  - the discount and original-price badges;
  - the add button;
  - the minus and plus controls on a product already in the cart;
  - the star rows;
  - the review dialog.
- **The order history page:**
  - the status filter and the per-status counts;
  - the status table (`orderStatusMap`);
  - the five-step progress timeline, or the cancellation notice;
  - the detail drawer.
- **The order detail page.** It has its own four-status order type, the status configuration, which action (cancel or return) is offered, the grand total, and the two dialogs.
- **The sample data:**
  - the catalogue of eight products;
  - the six sample orders, built with `createCartItem`;
  - the provinces and cities, with `getCitiesByProvince`.
- **The "amazing offers" countdown**, which ticks once a second and wraps from 00:00:00 to 23:59:59, and its two-digit display.
- **The product carousel's cut to `maxItems`.**
- **The bottom navigation:** the four tabs, the active tab, and the cart badge, which caps at "99+".
- **The theme store:** nine colours, partially overwritten by `setColors` and restored by `resetColors`.

How each kind of code is modelled:

- State that a component or provider updates in place is a Dafny `class` whose methods carry `modifies` and state the whole new state. Each is specified by pure functions (`Added`, `Removed`, `Increased`, `Decreased`, `FilteredOrders`, `Merge`, …), and the lemmas beside them prove what the application relies on.
- Derived values (totals, filters, labels, badges) are functions with contracts.
- JavaScript truthiness is written out where the code depends on it: an empty string id, a zero discount, an empty date.

Files:

- `wrappers.dfy` has `Option` and `Result`.
- `seqs.dfy` has `filter`, `indexOf` and subsequence.
- `text.dfy` has decimal `toString`, `padStart` and `includes`, for the integers and strings the code uses.
- `types.dfy` has the product, cart line, order and tab types.
- Every other file models one source file.

## Model

| member | source | states |
|---|---|---|
| Seqs.Filter | src/pages/OrdersPage.tsx:37-39 | `Array.filter`: the result is a subsequence of the input, no longer than it; it is the whole input when every element passes and empty when none does |
| Seqs.FilterMembership | src/pages/OrdersPage.tsx:37-39 | an element is in the filtered list exactly when it is in the input and passes the predicate |
| Seqs.FilterConcat | src/pages/OrdersPage.tsx:44-49 | filtering a concatenation is concatenating the filtered parts |
| Seqs.IndexOf | src/pages/OrdersPage.tsx:68 | `indexOf`: -1 exactly when the value is absent; otherwise the first position holding it |
| Text.Digits | src/components/products/AmazingOffers.tsx:63 | the decimal digits of a natural number are nonempty, all digits, one digit exactly below 10, at most two exactly below 100, and have no leading zero |
| Text.ParseDigitsOfDigits | src/components/products/AmazingOffers.tsx:63 | reading back the digits of `n` gives `n` |
| Text.ToDecimal | src/components/layout/BottomNavigation.tsx:56 | number-to-string: a leading '-' exactly for negatives, digits otherwise |
| Text.DecimalRoundTrip | src/components/layout/BottomNavigation.tsx:56 | parsing the decimal string of any integer gives the integer back |
| Text.NegativeRoundTrip | src/components/layout/BottomNavigation.tsx:56 | the round trip for negative integers |
| Text.PadStart | src/components/products/AmazingOffers.tsx:63 | `padStart`: the result has the target length (or the original one if longer), ends with the input and is filled in front with the fill character |
| Text.Contains | src/pages/ProductsPage.tsx:29-30 | `includes`: true exactly when the needle occurs at some position; the empty needle always occurs |
| CartContext.Find | src/contexts/CartContext.tsx:43 | `find` by id: none exactly when no line has the id; otherwise the first line with it |
| CartContext.FindDistinct | src/contexts/CartContext.tsx:43 | with distinct ids, finding a line's id returns that line |
| CartContext.Added | src/contexts/CartContext.tsx:41-56 | adding: an absent product is appended with quantity 1; a present one keeps the length; other lines are unchanged; the matching line is raised by one only below stock; distinct ids stay distinct |
| CartContext.Removed | src/contexts/CartContext.tsx:59-61 | removing: the id is gone, the result is a subsequence, every other line stays, an absent id changes nothing, distinct ids stay distinct |
| CartContext.FilterKeepsDistinctIds | src/contexts/CartContext.tsx:59-61 | filtering keeps ids distinct |
| CartContext.Increased | src/contexts/CartContext.tsx:63-71 | the matching line's quantity rises by one only while below stock; products and length unchanged; distinct ids and the in-stock invariant are preserved |
| CartContext.Decreased | src/contexts/CartContext.tsx:73-81 | the matching line's quantity falls by one only while above 1; products and length unchanged; distinct ids and in-stock preserved |
| CartContext.TotalItems | src/contexts/CartContext.tsx:87 | `totalItems`: the quantities summed as `reduce` does, from the first entry; its additivity and change-by-one-line facts are `TotalsConcat` and `TotalsChangeAt` |
| CartContext.Amount | src/pages/CartPage.tsx:105 | the amount of one entry (and of one cart-page row): unit price times quantity |
| CartContext.TotalPrice | src/contexts/CartContext.tsx:88 | `totalPrice`: the entry amounts summed as `reduce` does; `RowsAddUpToTotalPrice` ties it to the rows the cart page lists |
| CartContext.TotalsBounds | src/contexts/CartContext.tsx:87-88 | with quantities at least 1 the item total is at least the number of lines; with nonnegative prices and quantities the price total is nonnegative |
| CartContext.TotalsConcat | src/contexts/CartContext.tsx:87-88 | both totals are additive over concatenation |
| CartContext.TotalsChangeAt | src/contexts/CartContext.tsx:87-88 | changing one line changes the totals by exactly that line's difference |
| CartContext.AddAbsentTotals | src/contexts/CartContext.tsx:51-55 | adding a new product raises the item total by 1 and the price total by its price |
| CartContext.IncreaseTotals | src/contexts/CartContext.tsx:63-71 | a raise below stock adds 1 item and one unit price |
| CartContext.DecreaseTotals | src/contexts/CartContext.tsx:73-81 | a lowering above 1 removes 1 item and one unit price |
| CartContext.RemovedIsCut | src/contexts/CartContext.tsx:59-61 | with distinct ids, removing line k cuts exactly position k out |
| CartContext.RemoveTotals | src/contexts/CartContext.tsx:59-61 | removing a line subtracts its quantity and its amount from the totals |
| CartContext.IncreaseAtStockIsNoop | src/contexts/CartContext.tsx:65-69 | raising a line already at its stock changes nothing |
| CartContext.DecreaseAtOneIsNoop | src/contexts/CartContext.tsx:75-79 | lowering a line at quantity 1 changes nothing, and the line stays in the cart |
| CartContext.AddKeepsInStock | src/contexts/CartContext.tsx:41-56 | adding a product with stock keeps every quantity within its stock |
| CartContext.AddOutOfStock | src/contexts/CartContext.tsx:51-55 | adding a product whose stock is 0 puts a line above its stock into the cart (add is not stock-guarded for new products), and a raise then leaves it there |
| CartContext.Cart.constructor | src/contexts/CartContext.tsx:30-34 | the cart starts as the saved lines |
| CartContext.Cart.AddToCart | src/contexts/CartContext.tsx:41-56 | the new lines are `Added` of the old ones; distinct ids preserved |
| CartContext.Cart.RemoveFromCart | src/contexts/CartContext.tsx:59-61 | the new lines are `Removed` of the old ones; distinct ids preserved |
| CartContext.Cart.IncreaseQuantity | src/contexts/CartContext.tsx:63-71 | the new lines are `Increased`; distinct ids and in-stock preserved |
| CartContext.Cart.DecreaseQuantity | src/contexts/CartContext.tsx:73-81 | the new lines are `Decreased`; distinct ids and in-stock preserved |
| CartContext.Cart.ClearCart | src/contexts/CartContext.tsx:83-85 | the cart is empty and both totals are 0 |
| CartPage.FinalPrice | src/pages/CartPage.tsx:16-17 | 0 for an empty cart; otherwise at least the delivery fee when amounts are nonnegative |
| CartPage.FinalPriceOfAdd | src/pages/CartPage.tsx:16-17 | adding a new product raises the payable amount by its price, plus the fee when the cart was empty |
| CartPage.MinusDisabledIffNoop | src/pages/CartPage.tsx:84-85 | the minus button is disabled exactly when lowering would change nothing |
| CartPage.PlusDisabledIffNoop | src/pages/CartPage.tsx:94-95 | the plus button is disabled exactly when raising would change nothing |
| CartPage.RowsTotal | src/pages/CartPage.tsx:105 | the row amounts the page lists, added up from the first row |
| CartPage.RowsAddUpToTotalPrice | src/pages/CartPage.tsx:105-148 | the rows shown add up to the products' total in the summary, for every cart |
| CartPage.MinusDisabled | src/pages/CartPage.tsx:85 | the minus button is disabled at quantity 1 or below; `MinusDisabledIffNoop` proves that is exactly when a decrease would change nothing |
| CartPage.AtStockLimit | src/pages/CartPage.tsx:95 | the plus button is disabled, and the stock warning of line 129 shown, once the quantity reaches the stock; `PlusDisabledIffNoop` proves that is exactly when an increase would change nothing |
| CartPage.ShowUnitBreakdown | src/pages/CartPage.tsx:107 | the breakdown shows for quantities above 1; `BreakdownIffMinusEnabled` relates it to the minus button |
| CartPage.BreakdownIffMinusEnabled | src/pages/CartPage.tsx:107-111 | the "price × quantity" breakdown shows exactly when the minus button is enabled |
| CartPage.CartPageState.constructor | src/pages/CartPage.tsx:8-10 | both dialogs closed and no line chosen |
| CartPage.CartPageState.RequestRemove | src/pages/CartPage.tsx:118-121 | the line is chosen and the remove dialog opens |
| CartPage.CartPageState.ConfirmRemove | src/pages/CartPage.tsx:180-186 | a chosen, non-empty id is removed from the cart, otherwise the cart is unchanged; the dialog closes and the choice clears |
| CartPage.CartPageState.CancelRemove | src/pages/CartPage.tsx:172-175 | the remove dialog closes and the choice clears |
| CartPage.CartPageState.RequestClear | src/pages/CartPage.tsx:44 | the clear dialog opens |
| CartPage.CartPageState.ConfirmClear | src/pages/CartPage.tsx:205-208 | the cart is empty, the payable amount is 0 and the dialog closes |
| CartPage.CartPageState.CancelClear | src/pages/CartPage.tsx:200 | the clear dialog closes |
| ProductCard.StockBadgeCases | src/components/products/ProductCard.tsx:34-41 | the two stock badges never show together; for nonnegative stock one shows exactly when the stock is below 5 |
| ProductCard.LowStockBadge | src/components/products/ProductCard.tsx:34 | the "only N left" badge: stock strictly between 0 and 5 |
| ProductCard.OutOfStockBadge | src/components/products/ProductCard.tsx:39 | the "unavailable" badge: stock exactly 0 |
| ProductCard.AddDisabled | src/components/products/ProductCard.tsx:78 | the add button is disabled at stock 0; the product page's add button (ProductDetailsPage.tsx:421) uses the same condition |
| ProductCard.AddButtonLabel | src/components/products/ProductCard.tsx:78-80 | the caption is "unavailable" exactly when the button is disabled |
| ProductCard.ForwardedAdd | src/components/products/ProductCard.tsx:14-18 | the product reaches the callback exactly when one was given |
| ProductCard.EnabledCardClickKeepsInStock | src/components/products/ProductCard.tsx:14-18 | a click on an enabled card with a callback hands over the card's own product, and adding it keeps every cart quantity within stock |
| ProductCard.NumberSlot | src/components/products/ProductCard.tsx:29 | the `{value && …}` slot as written: nothing, the element, or the stray text "0" for a zero |
| ProductCard.ShownValue | src/components/products/ProductCard.tsx:29 | the value a badge should show: present exactly for a present nonzero value |
| ProductCard.SlotAgreesWithShownValue | src/components/products/ProductCard.tsx:29 | the rendered slot shows a value exactly when `ShownValue` does, the same value, and shows a stray "0" exactly for a zero |
| ProductCard.ZeroDiscountShowsStrayZero | src/components/products/ProductCard.tsx:29 | a zero discount renders the text "0" where no badge is intended |
| ProductCard.ZeroOriginalPriceShowsStrayZero | src/components/products/ProductCard.tsx:65 | a zero original price renders the text "0" where no struck-through price is intended |
| ProductCard.DiscountBadge | src/components/products/ProductCard.tsx:29-33 | the discount badge shows exactly for a present nonzero discount |
| ProductCard.OriginalPriceShown | src/components/products/ProductCard.tsx:65-69 | the struck-through price shows exactly for a present nonzero original price |
| ProductDetailsPage.CartItemOf | src/pages/ProductDetailsPage.tsx:45 | the found line has the product's id and is in the cart |
| ProductDetailsPage.InCart | src/pages/ProductDetailsPage.tsx:46 | `inCart`: the lookup found an entry; `InCartIff` proves it is "some entry has the id" |
| ProductDetailsPage.CartItemIsFirstMatch | src/pages/ProductDetailsPage.tsx:45-46 | the found line is the first one with the id, and the product counts as in the cart |
| ProductDetailsPage.InCartIff | src/pages/ProductDetailsPage.tsx:46 | "in cart" exactly when some line has the product's id |
| ProductDetailsPage.AddEnabledKeepsInStock | src/pages/ProductDetailsPage.tsx:421 | adding through the enabled button keeps every line within stock |
| ProductDetailsPage.MinusClicked | src/pages/ProductDetailsPage.tsx:432-438 | the minus control: remove at quantity 1, decrease otherwise; `MinusRemovesOrDecrements` states the result |
| ProductDetailsPage.PlusDisabled | src/pages/ProductDetailsPage.tsx:447 | the plus control is disabled once the quantity reaches the stock |
| ProductDetailsPage.MinusRemovesOrDecrements | src/pages/ProductDetailsPage.tsx:432-438 | minus on quantity 1 cuts the line out, above 1 lowers only that line by one, below 1 changes nothing; from 1 up the item total drops by one |
| ProductDetailsPage.PlusEnabledIncrements | src/pages/ProductDetailsPage.tsx:446-447 | an enabled plus adds exactly one item and one unit price |
| ProductDetailsPage.ShownTotal | src/pages/ProductDetailsPage.tsx:455 | the total under the controls: the page's product price times the entry's quantity; `ShownTotalIsRowAmount` equates it with the entry's amount |
| ProductDetailsPage.ShownTotalIsRowAmount | src/pages/ProductDetailsPage.tsx:455 | the total shown is the line's amount |
| ProductDetailsPage.StockLabelOf | src/pages/ProductDetailsPage.tsx:203-216 | "only N left" exactly for 0 < stock < 5, with N the stock; "available" exactly from 5; "unavailable" exactly at or below 0 |
| ProductDetailsPage.StockLabelMatchesCard | src/pages/ProductDetailsPage.tsx:203-216 | the details label agrees with the card's badges for nonnegative stock; a negative stock is labelled unavailable without a card badge |
| ProductDetailsPage.RenderStars | src/pages/ProductDetailsPage.tsx:73-81 | five stars |
| ProductDetailsPage.CountFilled | src/pages/ProductDetailsPage.tsx:73-81 | a count of filled stars is at most the number of stars |
| ProductDetailsPage.FilledStars | src/pages/ProductDetailsPage.tsx:73-81 | the number of filled stars is the rating clamped to 0..5, and filled stars come first |
| ProductDetailsPage.PickerStars | src/pages/ProductDetailsPage.tsx:497-506 | the rating picker has five stars |
| ProductDetailsPage.PickerMatchesRenderStars | src/pages/ProductDetailsPage.tsx:497-506 | the picker fills the same stars as the rating display |
| ProductDetailsPage.ProductDetailsState.constructor | src/pages/ProductDetailsPage.tsx:41-43 | both dialogs closed, review draft rating 5 and empty comment |
| ProductDetailsPage.ProductDetailsState.HandleAddToCart | src/pages/ProductDetailsPage.tsx:54-57 | the cart becomes `Added` of the old cart and the "added" dialog opens |
| ProductDetailsPage.ProductDetailsState.CloseAdded | src/pages/ProductDetailsPage.tsx:466-481 | the "added" dialog closes |
| ProductDetailsPage.ProductDetailsState.OnMinusClick | src/pages/ProductDetailsPage.tsx:432-438 | the cart becomes the minus-click result (remove at quantity 1, lower otherwise) |
| ProductDetailsPage.ProductDetailsState.OnPlusClick | src/pages/ProductDetailsPage.tsx:446-447 | the cart becomes `Increased` of the old cart |
| ProductDetailsPage.ProductDetailsState.OpenReview | src/pages/ProductDetailsPage.tsx:361 | the review dialog opens and the draft is kept |
| ProductDetailsPage.ProductDetailsState.PickRating | src/pages/ProductDetailsPage.tsx:497-506 | the draft rating becomes the star picked (1..5) |
| ProductDetailsPage.ProductDetailsState.EditComment | src/pages/ProductDetailsPage.tsx:521-523 | the draft comment becomes the text typed |
| ProductDetailsPage.ProductDetailsState.SubmitOrCancelReview | src/pages/ProductDetailsPage.tsx:533-544 | the dialog closes and the draft resets to rating 5, empty comment |
| ProductDetailsPage.ProductDetailsState.DismissReview | src/pages/ProductDetailsPage.tsx:488 | the dialog closes and the draft is kept |
| ProductsPage.FirstIndex | src/pages/ProductsPage.tsx:21-24 | the first position of a present value |
| ProductsPage.Distinct | src/pages/ProductsPage.tsx:23 | `new Set` then spread: no longer than the input |
| ProductsPage.DistinctContents | src/pages/ProductsPage.tsx:23 | the distinct list holds exactly the input's values, each once |
| ProductsPage.DistinctInFirstAppearanceOrder | src/pages/ProductsPage.tsx:23 | the distinct values appear in the order of their first appearance |
| ProductsPage.CategoriesOf | src/pages/ProductsPage.tsx:23 | the category of each product, position by position |
| ProductsPage.Categories | src/pages/ProductsPage.tsx:21-24 | the category list starts with "all" |
| ProductsPage.CategoriesContents | src/pages/ProductsPage.tsx:21-24 | every product's category is listed, and every listed entry after "all" is some product's category |
| ProductsPage.CategoriesRepeatIff | src/pages/ProductsPage.tsx:21-24 | the list has no repeat exactly when no product's category is "all" |
| ProductsPage.MockCategoriesOf | src/data/products.ts:4-101 | the categories of the eight sample products, in order |
| ProductsPage.MockCategories | src/pages/ProductsPage.tsx:21-24 | for the sample catalogue the list is "all" and then its three categories |
| ProductsPage.Matches | src/pages/ProductsPage.tsx:28-33 | the keep test: the lowered name or description contains the lowered term, and the category is "all" or the product's |
| ProductsPage.FilteredProducts | src/pages/ProductsPage.tsx:27-34 | the filtered list is a subsequence of the catalogue |
| ProductsPage.FilteredKeepsIff | src/pages/ProductsPage.tsx:27-34 | a product is kept exactly when its lowered name or description contains the lowered search term and the category is "all" or its own |
| ProductsPage.EmptySearchListsAll | src/pages/ProductsPage.tsx:27-34 | an empty search with category "all" lists the whole catalogue |
| ProductsPage.FilteredByCategory | src/pages/ProductsPage.tsx:31-32 | with a chosen category every listed product has that category |
| ProductsPage.ProductsPageState.constructor | src/pages/ProductsPage.tsx:12-17 | empty search, category "all", drawer and dialogs closed |
| ProductsPage.ProductsPageState.Listed | src/pages/ProductsPage.tsx:27-34 | the listed products are a subsequence of the catalogue |
| ProductsPage.ProductsPageState.SetSearchTerm | src/pages/ProductsPage.tsx:85-91 | the search term is replaced, by typing or by the clear button; nothing else changes |
| ProductsPage.ProductsPageState.OpenFilterDrawer | src/pages/ProductsPage.tsx:104 | the drawer opens |
| ProductsPage.ProductsPageState.CloseFilterDrawer | src/pages/ProductsPage.tsx:162 | the drawer closes |
| ProductsPage.ProductsPageState.HandleCategorySelect | src/pages/ProductsPage.tsx:54-57 | the category is chosen and the drawer closes |
| ProductsPage.ProductsPageState.ClearCategory | src/pages/ProductsPage.tsx:117 | the category returns to "all" |
| ProductsPage.ProductsPageState.HandleAddToCart | src/pages/ProductsPage.tsx:36-39 | the cart becomes `Added` of the old cart and the "added" dialog opens |
| ProductsPage.ProductsPageState.ClickCardAdd | src/pages/ProductsPage.tsx:146-152 | a click on an enabled card in the grid adds that card's product to the cart and opens the "added" dialog |
| ProductsPage.ProductsPageState.CloseAddedModal | src/pages/ProductsPage.tsx:186-198 | the "added" dialog closes |
| ProductsPage.ProductsPageState.HandleRequestRemove | src/pages/ProductsPage.tsx:41-44 | the product is chosen and the remove dialog opens |
| ProductsPage.ProductsPageState.HandleConfirmRemove | src/pages/ProductsPage.tsx:46-52 | a chosen product is removed from the cart, otherwise the cart is unchanged; the dialog closes and the choice clears |
| ProductsPage.ProductsPageState.CancelRemove | src/pages/ProductsPage.tsx:205-208 | the remove dialog closes and the choice clears |
| OrdersData.FindProduct | src/data/orders.ts:7 | none exactly when no product has the id; otherwise the first product with it |
| OrdersData.CreateCartItemFrom | src/data/orders.ts:6-10 | an error exactly when no product has the id, with the message "Product <id> not found"; otherwise the first such product with the given quantity |
| OrdersData.CreateCartItem | src/data/orders.ts:6-10 | `createCartItem` over the sample catalogue; `CreatesEveryProduct` and `CreateCartItemUnknown` state its results |
| OrdersData.CreateCartItemUnknown | src/data/orders.ts:8 | an id the catalogue lacks ("9") makes `createCartItem` fail |
| OrdersData.CreatesEveryProduct | src/data/orders.ts:6-10 | every catalogue id yields its own product with the given quantity |
| OrdersData.MockItemsAreCreated | src/data/orders.ts:12-112 | every line of the sample orders is what `createCartItem` builds from its id and quantity |
| OrdersData.MockOrdersConsistent | src/data/orders.ts:12-112 | in every sample order the total is subtotal plus fee, the subtotal is the lines' price total and the fee is the cart page's 50 000 |
| OrdersPage.FilteredOrders | src/pages/OrdersPage.tsx:37-39 | the listed orders are a subsequence of the history, and the "all" filter lists all of them |
| OrdersPage.FilteredByStatus | src/pages/OrdersPage.tsx:37-39 | with a status filter, an order is listed exactly when it has that status |
| OrdersPage.StatusCount | src/pages/OrdersPage.tsx:44-49 | a status count is at most the number of orders |
| OrdersPage.CountOf | src/pages/OrdersPage.tsx:42-50 | the "all" count is the number of orders |
| OrdersPage.CountIsListedLength | src/pages/OrdersPage.tsx:42-50 | the count shown beside a filter is the number of orders that filter lists |
| OrdersPage.StatusCountsSum | src/pages/OrdersPage.tsx:42-50 | the six status counts add up to the "all" count |
| OrdersPage.MockHasEveryStatus | src/data/orders.ts:12-112 | the sample history has an order of every status |
| OrdersPage.MockCountsAreOne | src/pages/OrdersPage.tsx:44-49 | in the sample history every status count is exactly 1 |
| OrdersPage.AllFilterFindsSomething | src/pages/OrdersPage.tsx:147-214 | past the empty-history screen, the "all" filter never shows "no match" |
| OrdersPage.ShowEmptyHistory | src/pages/OrdersPage.tsx:147 | the empty-history screen: no orders at all |
| OrdersPage.ShowNoMatch | src/pages/OrdersPage.tsx:205 | the "no match" message: the filter lists nothing |
| OrdersPage.ShowFilterChip | src/pages/OrdersPage.tsx:187 | the filter chip shows for any filter but "all" |
| OrdersPage.StatusInfoOf | src/types/order.ts:38-75 | `orderStatusMap`: the title, colours and icon of each status; `StatusInfoInjective` proves the entries distinct |
| OrdersPage.StatusInfoInjective | src/types/order.ts:38-75 | different statuses have different display entries |
| OrdersPage.CurrentIndex | src/pages/OrdersPage.tsx:67-68 | the progress index is -1 or a position of the five-step order |
| OrdersPage.CurrentIndexCases | src/pages/OrdersPage.tsx:67-68 | the index is -1 exactly for a cancelled order; otherwise the step at it is the order's status |
| OrdersPage.Steps | src/pages/OrdersPage.tsx:59-65 | five steps, keyed in the fixed status order |
| OrdersPage.PreparingStepShowsCreatedAt | src/pages/OrdersPage.tsx:62 | the "preparing" step carries the creation date, the same date as the first step |
| OrdersPage.OrderTimeline | src/pages/OrdersPage.tsx:70-97 | the cancellation notice is drawn exactly for a cancelled order; otherwise five steps |
| OrdersPage.CancelledNoticeShowsTruthy | src/pages/OrdersPage.tsx:79-85 | the notice shows the cancellation date and the notes exactly when they are non-empty |
| OrdersPage.ViewStep | src/pages/OrdersPage.tsx:95-134 | one drawn step: completed up to the current index, current at it, date shown when completed and non-empty; `TimelineProgress` and `StepDateShownOnlyWhenCompleted` state it |
| OrdersPage.TimelineProgress | src/pages/OrdersPage.tsx:95-97 | a step is completed exactly up to the current index and current exactly at the order's status |
| OrdersPage.StepDateShownOnlyWhenCompleted | src/pages/OrdersPage.tsx:134 | a step's date shows exactly when the step is completed and its date is non-empty |
| OrdersPage.OrdersPageState.constructor | src/pages/OrdersPage.tsx:16-19 | "all" filter, drawer and detail closed, no order chosen |
| OrdersPage.OrdersPageState.Listed | src/pages/OrdersPage.tsx:37-39 | the listed orders are a subsequence of the history |
| OrdersPage.OrdersPageState.OpenFilter | src/pages/OrdersPage.tsx:178 | the filter drawer opens |
| OrdersPage.OrdersPageState.CloseFilter | src/pages/OrdersPage.tsx:291 | the filter drawer closes |
| OrdersPage.OrdersPageState.SelectFilter | src/pages/OrdersPage.tsx:297-326 | the filter is chosen, the drawer closes and the list is that filter's orders |
| OrdersPage.OrdersPageState.ClearFilterChip | src/pages/OrdersPage.tsx:193 | the filter returns to "all" and the whole history is listed |
| OrdersPage.OrdersPageState.HandleOrderClick | src/pages/OrdersPage.tsx:52-55 | the order is chosen and the detail drawer opens |
| OrdersPage.OrdersPageState.CloseOrderDetail | src/pages/OrdersPage.tsx:350-353 | the detail drawer closes and the choice clears |
| OrderDetailPage.StatusConfigInjective | src/pages/OrderDetailPage.tsx:38-69 | different statuses get different icons and colours |
| OrderDetailPage.GetStatusConfig | src/pages/OrderDetailPage.tsx:38-69 | `getStatusConfig`: icon, text and colours per status |
| OrderDetailPage.CanCancel | src/pages/OrderDetailPage.tsx:72 | `canCancel`: pending or processing |
| OrderDetailPage.CanReturn | src/pages/OrderDetailPage.tsx:73 | `canReturn`: delivered |
| OrderDetailPage.ShowActions | src/pages/OrderDetailPage.tsx:229 | the warning box and the action bar: some action offered |
| OrderDetailPage.ShowDeliveryTimeline | src/pages/OrderDetailPage.tsx:193 | the delivery timeline card: a processing order |
| OrderDetailPage.LineAmount | src/pages/OrderDetailPage.tsx:158 | the amount on a line: unit price times quantity |
| OrderDetailPage.LinesTotal | src/pages/OrderDetailPage.tsx:142-162 | the listed line amounts added up; nonnegative for nonnegative prices and quantities |
| OrderDetailPage.ActionsExclusive | src/pages/OrderDetailPage.tsx:72-73 | cancel and return are never both offered, and a cancelled order is offered neither |
| OrderDetailPage.ShowActionsIffNotCancelled | src/pages/OrderDetailPage.tsx:229 | the warning and action bar show exactly for an order that is not cancelled |
| OrderDetailPage.TimelineOrderIsCancellable | src/pages/OrderDetailPage.tsx:193 | an order whose delivery timeline is drawn can be cancelled and not returned |
| OrderDetailPage.GrandTotal | src/pages/OrderDetailPage.tsx:171-186 | when `totalPrice` is the products' total the page labels it as, the grand total is the listed line amounts plus the delivery fee |
| OrderDetailPage.LineOf | src/pages/OrderDetailPage.tsx:5-11 | a cart entry as a line of this page; its line amount is the entry's amount |
| OrderDetailPage.LinesOf | src/pages/OrderDetailPage.tsx:5-11 | the entries as lines, position by position |
| OrderDetailPage.LinesOfTotal | src/pages/OrderDetailPage.tsx:142-162 | lines made from cart entries add up to the cart's price total |
| OrderDetailPage.CheckoutGrandTotalIsFinalPrice | src/pages/OrderDetailPage.tsx:171-186 | for an order made from a non-empty cart as the page expects, the lines add up to `totalPrice` and the grand total is the cart page's payable amount |
| OrderDetailPage.HistoryOrderFeeCountedTwice | src/pages/OrderDetailPage.tsx:186 | a consistent order of the history type, whose `totalPrice` already includes the fee, gets a grand total of subtotal plus two fees |
| OrderDetailPage.OrderDetailState.constructor | src/pages/OrderDetailPage.tsx:29-32 | both dialogs closed, both reasons empty |
| OrderDetailPage.OrderDetailState.OpenCancel | src/pages/OrderDetailPage.tsx:249-251 | the cancel dialog opens, for a cancellable order only |
| OrderDetailPage.OrderDetailState.EditCancelReason | src/pages/OrderDetailPage.tsx:285 | the cancel reason becomes the text typed |
| OrderDetailPage.OrderDetailState.HandleCancelOrder | src/pages/OrderDetailPage.tsx:75-80 | the cancel dialog closes and its reason clears |
| OrderDetailPage.OrderDetailState.DismissCancel | src/pages/OrderDetailPage.tsx:272 | the cancel dialog closes and its reason is kept |
| OrderDetailPage.OrderDetailState.OpenReturn | src/pages/OrderDetailPage.tsx:257-259 | the return dialog opens, for a delivered order only |
| OrderDetailPage.OrderDetailState.EditReturnReason | src/pages/OrderDetailPage.tsx:324 | the return reason becomes the text typed |
| OrderDetailPage.OrderDetailState.HandleReturnOrder | src/pages/OrderDetailPage.tsx:82-87 | the return dialog closes and its reason clears |
| OrderDetailPage.OrderDetailState.DismissReturn | src/pages/OrderDetailPage.tsx:311 | the return dialog closes and its reason is kept |
| AmazingOffers.FromSeconds | src/components/products/AmazingOffers.tsx:16-20 | a number of seconds within a day gives a valid reading denoting it |
| AmazingOffers.SecondsRoundTrip | src/components/products/AmazingOffers.tsx:16-20 | valid readings and seconds within a day correspond one to one |
| AmazingOffers.ToSeconds | src/components/products/AmazingOffers.tsx:25-47 | a reading as seconds since midnight, the measure `Tick` decreases by one modulo a day |
| AmazingOffers.Tick | src/components/products/AmazingOffers.tsx:25-47 | with seconds left only the seconds drop; from a valid reading the next is valid and one second earlier modulo a day; 00:00:00 wraps to 23:59:59 |
| AmazingOffers.Countdown.constructor | src/components/products/AmazingOffers.tsx:16-20 | the countdown starts at 12:34:56, a valid reading of 45 296 seconds |
| AmazingOffers.Countdown.OnInterval | src/components/products/AmazingOffers.tsx:24-47 | each firing keeps the reading valid and steps it one second back modulo a day |
| AmazingOffers.FormatTime | src/components/products/AmazingOffers.tsx:63 | the display is at least two characters long |
| AmazingOffers.FormatTimeTwoDigits | src/components/products/AmazingOffers.tsx:63 | 0..99 shows as exactly two digits that denote the value |
| AmazingOffers.FormatTimeLongUnchanged | src/components/products/AmazingOffers.tsx:63 | a value of 10 or more, or a negative one, shows as its plain decimal string |
| AmazingOffers.FormatValidReading | src/components/products/AmazingOffers.tsx:63 | each field of a valid reading shows as two digits denoting it |
| AmazingOffers.ShowScrollButtons | src/components/products/AmazingOffers.tsx:122 | the strip's scroll buttons: more than two products |
| AmazingOffers.ScrollButtonsAgreeWithCarousel | src/components/products/AmazingOffers.tsx:122 | the strip shows scroll buttons for exactly the product lists the carousel (limit above two) shows them for |
| ProductCarousel.MaxItemsOrDefault | src/components/products/ProductCarousel.tsx:19 | an absent `maxItems` is 15 |
| ProductCarousel.SliceTo | src/components/products/ProductCarousel.tsx:33 | `slice(0, end)`: a prefix, of length `end` capped at the length, or for a negative `end` that many fewer than the length |
| ProductCarousel.DisplayProducts | src/components/products/ProductCarousel.tsx:33 | the shown products are a prefix of the list |
| ProductCarousel.DisplayIsPrefix | src/components/products/ProductCarousel.tsx:33 | for a nonnegative `maxItems` the first `maxItems` products are shown, all of them when they fit |
| ProductCarousel.ShowViewAll | src/components/products/ProductCarousel.tsx:40 | "view all": a callback given and more products than the limit |
| ProductCarousel.ViewAllIffCut | src/components/products/ProductCarousel.tsx:40 | "view all" shows exactly when a callback is given and the list was cut |
| ProductCarousel.ShowScrollButtons | src/components/products/ProductCarousel.tsx:52 | the scroll buttons: more than two displayed products |
| ProductCarousel.ScrollButtonsIff | src/components/products/ProductCarousel.tsx:52 | for `maxItems` above 2 the scroll buttons show exactly when there are more than two products |
| BottomNavigation.EveryTabOnce | src/components/layout/BottomNavigation.tsx:11-16 | each of the four tabs has exactly one navigation item |
| BottomNavigation.ShowBadge | src/components/layout/BottomNavigation.tsx:28 | the badge: the cart tab with a positive item count |
| BottomNavigation.BadgeText | src/components/layout/BottomNavigation.tsx:56 | "99+" exactly above 99 |
| BottomNavigation.BadgeShowsCount | src/components/layout/BottomNavigation.tsx:56 | up to 99 the badge reads back as the item count |
| BottomNavigation.BadgeIsShort | src/components/layout/BottomNavigation.tsx:28 | a badge that shows has one to three characters |
| BottomNavigation.IsActive | src/components/layout/BottomNavigation.tsx:39-52 | an item is drawn active when its id is the active tab |
| BottomNavigation.ExactlyOneActive | src/components/layout/BottomNavigation.tsx:39-52 | exactly one item is active for any active tab |
| BottomNavigation.TabClick | src/components/layout/BottomNavigation.tsx:44 | the clicked item's tab is reported, and it is that item's |
| BottomNavigation.ClickedTabBecomesActive | src/components/layout/BottomNavigation.tsx:44 | after a click the clicked item, and only it, is active |
| Locations.CitiesByProvinceIn | src/data/locations.ts:68-70 | the lookup returns a subsequence of the cities |
| Locations.GetCitiesByProvince | src/data/locations.ts:68-70 | the lookup returns a subsequence of the sample cities |
| Locations.CitiesByProvinceMembers | src/data/locations.ts:68-70 | a city is returned exactly when it is in the province and active |
| Locations.NoCitiesForUnknownIn | src/data/locations.ts:68-70 | a province no city names gets no cities |
| Locations.AllActiveLookup | src/data/locations.ts:68-70 | when every city is active the lookup is by province alone |
| Locations.CitiesReferToProvinces | src/data/locations.ts:3-66 | every sample city names a sample province |
| Locations.AllCitiesActive | src/data/locations.ts:18-66 | every sample city is active |
| Locations.GetCitiesIgnoresActivity | src/data/locations.ts:68-70 | on the sample data the lookup is by province alone |
| Locations.UnknownProvinceHasNoCities | src/data/locations.ts:68-70 | an id that is no sample province gets no cities |
| Locations.ProvinceIdsUnique | src/data/locations.ts:3-16 | the province ids are distinct |
| Locations.CityIdsUnique | src/data/locations.ts:18-66 | the city ids are distinct |
| ThemeContext.Merge | src/contexts/ThemeContext.tsx:69-71 | every colour the partial holds replaces the old one and every other colour stays |
| ThemeContext.MergeNothing | src/contexts/ThemeContext.tsx:69-71 | merging an empty partial changes nothing |
| ThemeContext.MergeIdempotent | src/contexts/ThemeContext.tsx:69-71 | merging the same partial twice is merging it once |
| ThemeContext.MergeFullPartial | src/contexts/ThemeContext.tsx:69-71 | a partial holding every colour fixes the result whatever the old colours were |
| ThemeContext.InitialColors | src/contexts/ThemeContext.tsx:48-51 | the defaults when nothing is saved; otherwise the saved colours over the defaults |
| ThemeContext.ThemeStore.constructor | src/contexts/ThemeContext.tsx:48-51 | the store starts at the initial colours |
| ThemeContext.ThemeStore.SetColors | src/contexts/ThemeContext.tsx:69-71 | the colours become the merge, and colours the partial lacks are untouched |
| ThemeContext.ThemeStore.ResetColors | src/contexts/ThemeContext.tsx:73-75 | the colours are the defaults again |

## Left out

- Saving to and loading from `localStorage`, and JSON parsing. The saved cart and the saved colours are constructor parameters, and the effects that write them back are not modelled.
- Writing the colours into CSS variables on the document root, and all other DOM effects.
- `Intl.NumberFormat` and date formatting. These are presentation only; the amounts formatted are modelled.
- `toLowerCase`: the product filter takes the lowering as an abstract `string -> string` parameter, because Unicode case mapping is not modelled.
- Fractional ratings. The model uses integer ratings, since `Math.round` of the average and floating-point reviews are not modelled.
- `setInterval` and `clearInterval`: one interval firing is the `OnInterval` method, and the timer itself is not modelled.
- `scrollBy` on the carousel and the offers strip. The scroll offsets are DOM state.
- Layout, images, icons, animations and the image slider. These are presentation only.
- `mockAddresses`: src/data/addresses.ts is not part of this model, so an order's address is kept as an index.
- `navigator.share`, and the handlers that only log to the console or are placeholders (share, favourite, payment, tracking).
- Navigation between pages and the `onBack` callbacks of the detail pages. These are handled by the app shell, which is not modelled.
- ProductsPage.ProductsPageState.HandleRequestRemove: the catalogue passes `handleRequestRemove` to each card as `onRequestRemove` (src/pages/ProductsPage.tsx:151), but the card neither declares nor calls that prop. So in the application the catalogue's remove dialog never opens; the model keeps the handler and its dialog as the page defines them.
- An explicitly `undefined` colour inside a partial theme object. A partial key is either absent or a string.
- CartContext.IncreaseTotals: states the totals only for a raise below stock; at or above stock, `IncreaseAtStockIsNoop` covers the case where nothing changes.
- OrderDetailPage: the page declares its own order type and nothing in the application opens it. It reads `totalPrice` as the amount before delivery and adds the fee on top, which agrees with a checkout order (`CheckoutGrandTotalIsFinalPrice`). An order of the history type, whose `totalPrice` already includes the fee, would have the fee counted twice (`HistoryOrderFeeCountedTwice`). Because the two are never connected, this is recorded as a property of the model and not as a finding.
- OrderDetailPage.OrderDetailState.HandleReturnOrder: the return dialog's "required" marker on the reason is a label only. The model, like the handler, accepts an empty reason.

## Findings

| source | as written | input that shows it | evidently intended | confidence | as-written member | corrected member |
|---|---|---|---|---|---|---|
| src/components/products/ProductCard.tsx:29 | `{product.discount && (…)}` renders the number itself when it is falsy, so React prints "0" | a product with `discount: 0` shows a stray "0" on the card | no discount badge and no text for a zero discount | not executed | ProductCard.ZeroDiscountShowsStrayZero | ProductCard.DiscountBadge |
| src/components/products/ProductCard.tsx:65 | `{product.originalPrice && (…)}` has the same shape, so an original price of 0 prints "0" | a product with `originalPrice: 0` shows a stray "0" beside its price | no struck-through price and no text for a zero original price | not executed | ProductCard.ZeroOriginalPriceShowsStrayZero | ProductCard.OriginalPriceShown |
