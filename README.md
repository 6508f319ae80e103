# Bytes and Bites canteen — a verified model of the ordering core

This project models, in Dafny, the core of a campus canteen web application.

- **Customers** browse a menu of meals and snacks and keep a cart checked against live stock. At checkout one order document is written, with one order-item document per cart line.
- **Staff** manage the menu and stock levels and watch a dashboard. They move orders through `Pending → Preparing → Ready → Completed`.
- **Scan and serve:** a counter scans the order's QR code to serve it. A completed order is refused as already served.

The persistent store is modelled as in-memory maps held by two classes.

- `Catalog.MenuStore` holds the `menu_items` collection.
- `Orders.OrderStore` holds the `orders` documents and their `order_items`, keyed by the path `users/{userId}/orders/{orderId}`.

Page state (the cart lines, dialog flags, the stock buffer, toasts) lives in classes whose methods update their fields. The derived views and the arithmetic are pure functions.

Money is an integer number of minor units (paise), and the cart's convenience fee of 1.00 is `Cart.ConvenienceFee = 100`. The static menu fixture is the one exception: it keeps its prices exactly as written, in whole rupees.

Some things the program reads from its environment are parameters in the model:

- timestamps, and the start of the current day;
- the id the store assigns to a new document;
- the random placeholder image URL;
- the result of the URL check and of `Number(...)`.

Where the code and the design intent differ, the model follows the code:

- **Status writes are unchecked.** A status write accepts any of the four statuses, including backwards moves. `Orders.ForwardOnly` is a labelled rule the code does not enforce, and `Orders.StatusWriteIsUnchecked` shows a `Completed → Pending` write going through.
- **Checkout is not atomic.** The order and its items are separate writes.
- **Order totals come from the cart.** The order's totals are the cart context's totals at the moment of checkout.

Modules, one per source file or concern:

- `Common`: optional values, the `new Map(...)` index (last entry wins), the first-match `find` and the category `filter`.
- `Catalog`: menu items, the menu store and the menu context helpers.
- `Cart`: the cart context.
- `Checkout`: the cart page.
- `Orders`: the staff orders page and the shared scan decision.
- `SuperAdminOrders`: the scan-and-serve page.
- `Dashboard`: the dashboard.
- `Stocks`: the stock page.
- `Forms`: both menu-item dialogs.
- `MenuAdmin`: the menu page.
- `OrderDetails`: the order details dialog.
- `Fixture`: the static fixture.
- `AuthErrors`: the error listener.

## Model

| member | source | states |
|---|---|---|
| Common.IndexBy | src/context/CartContext.tsx:37-40 | every element's key is in the index, and each entry is an element of the list carrying that key |
| Common.IndexByKeepsLast | src/context/CartContext.tsx:39 | the entry kept for a key is the last element with that key |
| Common.IndexByAbsent | src/context/CartContext.tsx:45-47 | a key no element carries is absent, so a lookup misses |
| Common.FindIndex | src/context/CartContext.tsx:62 | no index exactly when no element matches; otherwise the first matching position |
| Common.Find | src/context/CartContext.tsx:62-63 | `None` exactly when nothing matches; otherwise an element carrying the key |
| Common.FindIsFirst | src/context/CartContext.tsx:62-63 | the element found is the one at the first position carrying the key |
| Common.IndexByAgreesWithFind | src/app/admin/orders/page.tsx:77-80 | with distinct ids, the id index and the first-match search find the same element |
| Common.Filter | src/context/MenuContext.tsx:81-87 | the result holds exactly the elements of the list with the given category, and is no longer than the list |
| Common.FilterMultiset | src/context/MenuContext.tsx:81-87 | filtering keeps every copy of an element of the category and no other element |
| Common.FilterConcat | src/lib/data.ts:76-77 | filtering keeps list order: it distributes over concatenation |
| Common.FilterUniform | src/lib/data.ts:76-77 | a list all of the category filters to itself; one with none of it filters to nothing |
| Catalog.ApplyPatch | src/context/MenuContext.tsx:68-73 | a partial update keeps the id; each of the seven fields takes the patch's value when given and keeps the old one when absent; a stock-only patch changes nothing but stock |
| Catalog.MenuStore.constructor | src/context/MenuContext.tsx:60-61 | the store starts with the given documents, keyed by their ids |
| Catalog.MenuStore.Add | src/context/MenuContext.tsx:63-66 | a new document appears under a fresh id and the others are untouched |
| Catalog.MenuStore.Update | src/context/MenuContext.tsx:68-73 | the addressed document is merged with the patch; a missing document is not created |
| Catalog.MenuStore.Delete | src/context/MenuContext.tsx:75-79 | exactly the addressed document disappears |
| Catalog.AddMenuItem | src/context/MenuContext.tsx:63-66 | without a store nothing happens; otherwise the store gains exactly one document, under the fresh id, built from the form data, and the others are untouched |
| Catalog.UpdateMenuItem | src/context/MenuContext.tsx:68-73 | without a store nothing happens; ids are unchanged, only the addressed document changes, by the patch |
| Catalog.DeleteMenuItem | src/context/MenuContext.tsx:75-79 | without a store nothing happens; otherwise exactly that id is removed |
| Catalog.MenuItemsOf | src/context/MenuContext.tsx:92 | the exposed list is empty until the collection is loaded |
| Catalog.GetMeals | src/context/MenuContext.tsx:81-83 | the meals of the loaded menu, empty before loading |
| Catalog.GetSnacks | src/context/MenuContext.tsx:85-87 | the snacks of the loaded menu, empty before loading |
| Catalog.MealsAndSnacksPartition | src/context/MenuContext.tsx:81-87 | meals and snacks together are the menu, as multisets and by count |
| Catalog.CartIndexFollowsLoading | src/context/MenuContext.tsx:98 | while the menu or the user is loading, the cart's item index is empty; once both are loaded every menu item is in it |
| Catalog.MenuById | src/context/CartContext.tsx:37-40 | empty while loading; otherwise every item's id is present and maps to an item with that id |
| Cart.CurrentQuantity | src/context/CartContext.tsx:62-63 | the first matching line's quantity, 0 when there is none |
| Cart.IncrementLines | src/context/CartContext.tsx:74-79 | same length; every line of the item gains one unit, the others are kept in place |
| Cart.IncrementIsSetQuantity | src/context/CartContext.tsx:62-79 | with distinct ids, raising the item's lines by one is setting its one line to the current quantity plus one |
| Cart.SetQuantity | src/context/CartContext.tsx:108-112 | same length; matching lines get the new quantity, the others are kept in place |
| Cart.RemoveLines | src/context/CartContext.tsx:85-87 | exactly the lines with other ids remain |
| Cart.RemoveLinesConcat | src/context/CartContext.tsx:85-87 | removal keeps the order of the remaining lines |
| Cart.RemoveLinesUnique | src/context/CartContext.tsx:85-87 | removal keeps ids distinct |
| Cart.AddToCart | src/context/CartContext.tsx:58-83 | unknown item: nothing changes; quantity at or above stock: stock toast and nothing changes; otherwise every line of the item gains one unit, or a line of 1 is appended |
| Cart.RemoveFromCart | src/context/CartContext.tsx:85-87 | exactly the lines with other ids remain |
| Cart.UpdateQuantity | src/context/CartContext.tsx:89-116 | unknown item or line: no change; stock toast exactly when an increase passes stock; a listed item that stays within stock is always changed: the new quantity is set, or the line is removed when it drops to 0 or below |
| Cart.SetQuantityKeepsIds | src/context/CartContext.tsx:107-112 | setting a quantity keeps ids distinct |
| Cart.SetQuantityKeepsValid | src/context/CartContext.tsx:74-79 | giving one item's line a quantity between 1 and its stock keeps the cart invariant |
| Cart.IncrementKeepsValid | src/context/CartContext.tsx:62-79 | raising the line of an item still below its stock keeps the cart invariant |
| Cart.AppendKeepsValid | src/context/CartContext.tsx:80-82 | appending a line of 1 for an item not yet in the cart, with stock of at least 1, keeps the cart invariant |
| Cart.AddToCartKeepsValid | src/context/CartContext.tsx:58-83 | against a fixed catalog, adding keeps ids distinct, quantities ≥ 1 and within stock |
| Cart.UpdateQuantityKeepsValid | src/context/CartContext.tsx:89-116 | against a fixed catalog, changing a quantity keeps the cart invariant |
| Cart.RemoveFromCartKeepsValid | src/context/CartContext.tsx:85-87 | removing keeps the cart invariant |
| Cart.AddToCartAddsOneUnit | src/context/CartContext.tsx:74-82 | a successful add raises exactly one line by one unit, or appends one new line of 1 for an id not yet in the cart |
| Cart.NoStockNeverAdded | src/context/CartContext.tsx:62-72 | an item with stock 0 or less is always refused with the stock toast |
| Cart.ActionsKeepValid | src/context/CartContext.tsx:58-120 | no sequence of add, update, remove and clear actions breaks the invariant: every line stays within stock |
| Cart.CartItems | src/context/CartContext.tsx:43-55 | each line whose item still exists is merged with it; lines of deleted items are dropped; nothing else appears; order is kept when all resolve |
| Cart.CartItemsConcat | src/context/CartContext.tsx:43-55 | the merged view keeps line order |
| Cart.Fee | src/context/CartContext.tsx:127 | the fee is 1.00 exactly when the subtotal is positive, otherwise 0 |
| Cart.CartTotals | src/context/CartContext.tsx:122-130 | subtotal is Σ price × quantity, the fee follows the subtotal, and total = subtotal + fee |
| Cart.Subtotal | src/context/CartContext.tsx:123-126 | 0 for an empty cart, price × quantity for a single line |
| Cart.SubtotalConcat | src/context/CartContext.tsx:123-126 | the subtotal adds up over concatenation |
| Cart.SubtotalNonNegative | src/context/CartContext.tsx:123-126 | with non-negative prices and positive quantities the subtotal is ≥ 0, and 0 only when every price is 0 |
| Cart.LoadingCartIsEmpty | src/context/CartContext.tsx:37-40 | while the menu loads the cart shows nothing, totals are zero and adds are refused |
| Cart.ExampleScenario | src/context/CartContext.tsx:58-130 | A (stock 2) added three times gives 2 and a stock refusal; with B once the totals are 325.00 + 1.00 = 326.00 |
| Cart.ShoppingCart.constructor | src/context/CartContext.tsx:33 | the cart starts empty |
| Cart.ShoppingCart.Add | src/context/CartContext.tsx:58-83 | the new lines and outcome are those of `AddToCart`, and the invariant is kept |
| Cart.ShoppingCart.Update | src/context/CartContext.tsx:89-116 | the new lines and outcome are those of `UpdateQuantity`, and the invariant is kept |
| Cart.ShoppingCart.Remove | src/context/CartContext.tsx:85-87 | the lines become those of `RemoveFromCart`, and the invariant is kept |
| Cart.ShoppingCart.Clear | src/context/CartContext.tsx:118-120 | the cart becomes empty |
| Checkout.NewOrder | src/app/cart/page.tsx:56-65 | the order is `Pending` for the user and date, with the cart's total and fee |
| Checkout.OrderItemsFor | src/app/cart/page.tsx:72-85 | one order item per cart line, in order, each with the order id, item id, quantity and the price at checkout |
| Checkout.OrderTotalMatchesItems | src/app/cart/page.tsx:56-85 | the stored total is the sum over the stored items plus the fee; the fee is 1.00 exactly when that sum is positive |
| Checkout.SubtotalsAgree | src/app/cart/page.tsx:72-85 | the written items sum to the cart subtotal |
| Checkout.WriteOrderItems | src/app/cart/page.tsx:72-85 | afterwards exactly the order items for the cart lines, in order, are stored under the order; the orders themselves are untouched |
| Checkout.CartPage.constructor | src/app/cart/page.tsx:40 | not processing, not navigated |
| Checkout.CartPage.HandleProceedToPayment | src/app/cart/page.tsx:49-96 | no user, store or cart items: nothing happens; no order reference: the flag is reset and nothing is stored; otherwise the order and exactly its items are stored under a fresh path and the page navigates to the order; the cart is not touched |
| Checkout.PaymentMethodFor | src/app/cart/page.tsx:115-142 | UPI exactly on mobile, card otherwise |
| Orders.WithStatus | src/app/admin/orders/page.tsx:87-91 | same order paths; the addressed order gets the new status and nothing else changes |
| Orders.WithStatusIdempotent | src/app/admin/orders/page.tsx:87-91 | writing the same status twice equals writing it once |
| Orders.StatusWriteIsUnchecked | src/app/admin/orders/page.tsx:182-184 | the written status is the one given, even a backwards `Completed → Pending` that the forward-only rule forbids |
| Orders.Restatus | src/app/admin/orders/page.tsx:87-91 | an entry keeps its id and owner; only the addressed order takes the new status, any other entry is unchanged |
| Orders.OrderStore.constructor | src/app/cart/page.tsx:56-57 | the store starts empty |
| Orders.OrderStore.AddOrder | src/app/cart/page.tsx:56-65 | the order appears under its fresh path; items are untouched |
| Orders.OrderStore.AddOrderItem | src/app/cart/page.tsx:72-85 | the item is appended under the order's path; orders are untouched |
| Orders.OrderStore.UpdateStatus | src/app/admin/orders/page.tsx:89-90 | the orders become `WithStatus` of the old ones; items are untouched |
| Orders.HandleUpdateStatus | src/app/admin/orders/page.tsx:87-91 | without a store nothing happens; otherwise only the addressed order's status changes |
| Orders.BadgeFor | src/app/admin/orders/page.tsx:47-62 | `Pending` alone is destructive, `Preparing` alone secondary, `Ready` alone outline, `Completed` alone the default badge |
| Orders.OrdersMap | src/app/admin/orders/page.tsx:77-80 | empty until loaded; otherwise every order's id is a key, mapping to a loaded order with that id |
| Orders.ScanDecision | src/app/admin/orders/page.tsx:93-115 | not found exactly for an unknown id; already served exactly for a completed order; otherwise that order opens |
| Orders.ScanAgainstOrderList | src/app/admin/orders/page.tsx:93-115 | against the loaded list with distinct ids: an unlisted id is not found; a listed completed order is already served; any other listed order opens itself |
| Orders.SnapshotWithStatus | src/app/admin/orders/page.tsx:87-91 | the live list after a status write: same ids in the same order, only the addressed order's status changed |
| Orders.SnapshotReflectsWrite | src/app/admin/orders/page.tsx:87-91 | a live list that shows the store before a status write, with the write applied, shows the store after it |
| Orders.ScanAfterCompletionIsAlreadyServed | src/app/admin/orders/page.tsx:97-103 | once the completion is visible in the live list, scanning the same code again reports "already served" |
| Orders.AdminOrdersPage.constructor | src/app/admin/orders/page.tsx:73-75 | nothing selected, both dialogs closed |
| Orders.AdminOrdersPage.HandleViewDetails | src/app/admin/orders/page.tsx:82-85 | the row's order is selected and its dialog opened |
| Orders.AdminOrdersPage.HandleScanResult | src/app/admin/orders/page.tsx:93-115 | the scanner closes; an unknown or completed order only adds the matching toast; any other order is selected with its dialog open |
| Orders.AdminOrdersPage.MarkRow | src/app/admin/orders/page.tsx:182-184 | the row's order gets the chosen status; other orders and all items are untouched |
| Orders.AdminOrdersPage.MarkSelectedCompleted | src/app/admin/orders/page.tsx:199 | the selected order's status becomes `Completed`; other orders and all items are untouched |
| SuperAdminOrders.ScanAndServePage.constructor | src/app/superadmin/orders/page.tsx:33-35 | nothing selected, both dialogs closed |
| SuperAdminOrders.ScanAndServePage.OpenScanner | src/app/superadmin/orders/page.tsx:91 | the scanner opens and nothing else changes |
| SuperAdminOrders.ScanAndServePage.HandleScanResult | src/app/superadmin/orders/page.tsx:48-71 | the outcome is the shared scan decision; toasts and dialog follow it; a completed order never opens |
| SuperAdminOrders.ScanAndServePage.MarkCompleted | src/app/superadmin/orders/page.tsx:102 | the selected order's status becomes `Completed`; other orders and all items are untouched |
| SuperAdminOrders.ServeTwice | src/app/superadmin/orders/page.tsx:48-71 | against a live list that shows the store, scanning an open order opens it; marking it completed writes the store, whose next live list shows it completed; scanning that list again reports "already served" |
| Dashboard.OrdersSince | src/app/admin/dashboard/page.tsx:71-73 | exactly the orders placed at or after the start of the day, each as often as in the list, and no others |
| Dashboard.OrdersBefore | src/app/admin/dashboard/page.tsx:71-73 | the complement: exactly the orders placed before the start of the day, each as often as in the list |
| Dashboard.Revenue | src/app/admin/dashboard/page.tsx:75-78 | 0 for no orders, the order's total for one order |
| Dashboard.RevenueConcat | src/app/admin/dashboard/page.tsx:75-78 | revenue is additive over any split of the order list |
| Dashboard.TodaySplitsOrders | src/app/admin/dashboard/page.tsx:71-78 | today's and earlier orders account for every order and all revenue exactly once |
| Dashboard.LaterBoundaryCountsLess | src/app/admin/dashboard/page.tsx:68-78 | a later day start never counts more orders or more revenue, for non-negative totals |
| Dashboard.RevenueNonNegative | src/app/admin/dashboard/page.tsx:75-78 | revenue is non-negative when every total is |
| Dashboard.DashboardStats | src/app/admin/dashboard/page.tsx:59-86 | all zeros until orders and users are loaded; otherwise today's revenue and order count, the user count and the menu size |
| Dashboard.QuantityOfUnreferenced | src/app/admin/dashboard/page.tsx:92-105 | an item no order refers to has sold nothing |
| Dashboard.FillItemSales | src/app/admin/dashboard/page.tsx:90-105 | one entry per referenced id found in the menu (first match gives the name), none twice, each counting its total quantity sold; as many keys as such ids |
| Dashboard.DistinctKeysCount | src/app/admin/dashboard/page.tsx:90-105 | a list of distinct keys has as many elements as the set it lists |
| Dashboard.TallySales | src/app/admin/dashboard/page.tsx:90-107 | the entries, none twice, each tallying a referenced menu item, and every referenced menu item has one; as many entries as such items |
| Dashboard.EntriesOf | src/app/admin/dashboard/page.tsx:107 | the entries in key order |
| Dashboard.Insert | src/app/admin/dashboard/page.tsx:108 | inserting keeps every entry and adds the new one |
| Dashboard.InsertSorted | src/app/admin/dashboard/page.tsx:108 | inserting into a list sorted by descending count keeps it sorted |
| Dashboard.SortByCountDesc | src/app/admin/dashboard/page.tsx:108 | sorting is a permutation of the entries |
| Dashboard.SortedSales | src/app/admin/dashboard/page.tsx:108 | the sorted entries have non-increasing counts |
| Dashboard.InsertDistinct | src/app/admin/dashboard/page.tsx:108 | inserting an entry for an item not yet listed keeps the ids distinct |
| Dashboard.SortDistinct | src/app/admin/dashboard/page.tsx:108 | sorting keeps the ids distinct and the number of entries |
| Dashboard.Take5 | src/app/admin/dashboard/page.tsx:109 | a prefix of at most five entries |
| Dashboard.TopFiveKeepsBest | src/app/admin/dashboard/page.tsx:107-109 | the top five are sorted, taken from the entries, and nothing left out outsells anything kept |
| Dashboard.TopSellingItems | src/app/admin/dashboard/page.tsx:88-110 | empty until loaded; otherwise five entries, or one per sold menu item when fewer have sold; each tallied, none for the same item twice, by descending count; no referenced menu item left out sold more than any kept |
| Stocks.InitialLevels | src/app/admin/stocks/page.tsx:31-39 | one level per menu id, each the stock of the last item with that id |
| Stocks.SaveDiff | src/app/admin/stocks/page.tsx:50-57 | an update exactly for each buffered level whose first menu match has a different stock, carrying that level |
| Stocks.SaveAfterSeedIsEmpty | src/app/admin/stocks/page.tsx:31-57 | with distinct ids, saving a freshly seeded buffer sends nothing |
| Stocks.WithStocks | src/app/admin/stocks/page.tsx:50-57 | same ids; updated items get the new stock, the others are unchanged |
| Stocks.WithStocksStep | src/app/admin/stocks/page.tsx:54 | one more update is one stock-only patch on that item, and nothing when the item is absent |
| Stocks.SendStockUpdate | src/app/admin/stocks/page.tsx:52-55 | after one more stock-only update the store holds the updates sent so far plus this one |
| Stocks.StockBuffer.constructor | src/app/admin/stocks/page.tsx:28 | the buffer starts empty |
| Stocks.StockBuffer.Seed | src/app/admin/stocks/page.tsx:31-39 | the buffer becomes the menu's stock levels |
| Stocks.StockBuffer.HandleStockChange | src/app/admin/stocks/page.tsx:41-46 | a non-negative number replaces one level; anything else changes nothing |
| Stocks.StockBuffer.SaveChanges | src/app/admin/stocks/page.tsx:48-74 | the updates sent are `SaveDiff`, and the store afterwards holds exactly those new stocks |
| Forms.ParseCategory | src/components/admin/menu-item-form-dialog.tsx:42 | accepts exactly "meal" and "snack", giving back the same name |
| Forms.CategoryNameRoundTrip | src/components/admin/menu-item-form-dialog.tsx:42 | every category's name parses back to it |
| Forms.ParseMenuItemForm | src/components/admin/menu-item-form-dialog.tsx:38-45 | valid exactly with name ≥ 3, price > 0, a known category and an image URL that is absent, empty or a URL; the values are the fields |
| Forms.ResetValues | src/components/admin/menu-item-form-dialog.tsx:77-100 | the defaults for a new entry, the item's own fields for an edit |
| Forms.EmptyMenuItemFormInvalid | src/components/admin/menu-item-form-dialog.tsx:67-75 | the untouched default form does not validate |
| Forms.ResetOfValidItemSubmits | src/components/admin/menu-item-form-dialog.tsx:80-88 | opening a well-formed item gives a form that validates to that item's fields |
| Forms.SubmitMenuItemForm | src/components/admin/menu-item-form-dialog.tsx:102-104 | the values are forwarded with the edited item's id, or no id |
| Forms.ParseAddItemForm | src/components/admin/add-menu-item-dialog.tsx:33-37 | valid exactly with name ≥ 3, price > 0 and a known category |
| Forms.EmptyAddItemFormInvalid | src/components/admin/add-menu-item-dialog.tsx:52-59 | the default add form does not validate |
| Forms.SubmitAddItemForm | src/components/admin/add-menu-item-dialog.tsx:61-65 | the values are forwarded, the dialog closes, and the reset form does not validate |
| Forms.AddItemParseRoundTrip | src/components/admin/add-menu-item-dialog.tsx:33-44 | valid values, written back into the form, parse to themselves |
| MenuAdmin.OrEmpty | src/app/admin/menu/page.tsx:69 | an absent string becomes "" |
| MenuAdmin.ExistingImageUrl | src/app/admin/menu/page.tsx:76-77 | the first matching item's image URL, "" when no item matches |
| MenuAdmin.MenuPage.constructor | src/app/admin/menu/page.tsx:41-42 | the dialog is closed with nothing being edited |
| MenuAdmin.MenuPage.HandleOpenDialog | src/app/admin/menu/page.tsx:44-47 | the given item, or none, is being edited and the dialog is open |
| MenuAdmin.MenuPage.HandleCloseDialog | src/app/admin/menu/page.tsx:49-52 | the dialog is closed with nothing being edited |
| MenuAdmin.MenuPage.HandleSaveItem | src/app/admin/menu/page.tsx:54-86 | the dialog closes; a non-empty id gives an update with that id, description defaulted to "", and the existing URL when none is given; otherwise an add with a non-empty URL (the placeholder when none is given) and the fixed image hint |
| MenuAdmin.MenuPage.HandleDeleteItem | src/app/admin/menu/page.tsx:88-90 | exactly that item is removed from the store |
| MenuAdmin.EditKeepsStockAndHint | src/app/admin/menu/page.tsx:67-79 | an edit keeps the item's id, stock and image hint and sets the submitted name, price, category, image URL and description (empty when missing) |
| Fixture.Meals | src/lib/data.ts:76 | exactly the fixture's meals |
| Fixture.Snacks | src/lib/data.ts:77 | exactly the fixture's snacks |
| Fixture.CategoriesOfDishes | src/lib/data.ts:17-74 | the first three dishes are meals, the other four snacks |
| Fixture.SplitByCategory | src/lib/data.ts:76-77 | a list of meals followed by snacks filters back into exactly those two parts |
| Fixture.MealsAndSnacksSplitFixture | src/lib/data.ts:17-77 | `meals` is the first three dishes, `snacks` the other four; together they are the fixture in order |
| Fixture.FixtureWellFormed | src/lib/data.ts:17-74 | the seven ids are distinct and every price is positive |
| OrderDetails.Subtotal | src/components/admin/order-details-dialog.tsx:33-36 | 0 for no items, non-negative when every row is |
| OrderDetails.SubtotalConcat | src/components/admin/order-details-dialog.tsx:33-36 | the subtotal adds up over any split of the rows |
| OrderDetails.RowTotals | src/components/admin/order-details-dialog.tsx:78-89 | one row total per item, each price × quantity |
| OrderDetails.RowTotalsSumToSubtotal | src/components/admin/order-details-dialog.tsx:78-89 | the row totals add up to the subtotal |
| OrderDetails.DialogFigures | src/components/admin/order-details-dialog.tsx:33-37 | subtotal + fee = grand total = the stored total; with no items the fee is the whole total |
| AuthErrors.AuthErrorMessage | src/components/FirebaseErrorListener.tsx:10-26 | each listed code gets its own message; every other code the generic one |
| AuthErrors.InternalMessageOnlyForSilentCode | src/components/FirebaseErrorListener.tsx:10-26 | only `auth/operation-not-allowed` maps to the internal-error message |
| AuthErrors.ToastFor | src/components/FirebaseErrorListener.tsx:42-55 | no toast exactly for the silent code; otherwise one destructive toast with the code's message, never the internal-error one |
| AuthErrors.ErrorListener.constructor | src/components/FirebaseErrorListener.tsx:34 | no toasts, no stored permission error |
| AuthErrors.ErrorListener.HandleAuthError | src/components/FirebaseErrorListener.tsx:42-55 | the silent code adds nothing; any other code adds exactly its toast; no toast ever shows the internal-error message |
| AuthErrors.ErrorListener.HandlePermissionError | src/components/FirebaseErrorListener.tsx:38-40 | the error is stored; toasts are untouched |
| AuthErrors.ErrorListener.Render | src/components/FirebaseErrorListener.tsx:66-70 | a stored permission error is thrown; otherwise nothing renders |

## Left out

- Firestore, Auth and Storage calls are modelled as in-memory maps. Live queries are snapshots given as parameters, `None` until loaded.
- Concurrency is not modelled: the parallel, unawaited order-item writes and interleaving with other sessions.
- Partial failure of individual writes is not modelled.
- Floating-point money and `toFixed(2)` formatting are not modelled. Prices, totals and the fee are integers in minor units.
- Dates are integer timestamps. Midnight of the current day is an input.
- QR capture with the camera is not modelled; the decoded string is the input.
- The Google Pay button and its gateway configuration are not modelled; only the UPI/card choice is.
- Charts, static dashboards, settings, users, the header and the image uploader are not modelled.
- `Checkout.CartPage.HandleProceedToPayment`: a missing order reference is treated as "nothing was written". Whether the non-blocking write helper may still have created the document is not known: src/firebase/non-blocking-updates.tsx is not part of this model.
- `Stocks.StockBuffer.HandleStockChange` takes the value of `Number(input)` as a parameter, so the string conversion is not modelled. `Number("")` is 0, so clearing the field sets the level to 0. A fractional input such as "1.5" is accepted by the page, but the model's levels are integers.
- `Stocks.StockBuffer.SaveChanges`: the order in which `Object.entries` lists the levels is not modelled, because the updates do not depend on it.
- The success and error toasts after saving stock, and the transition flag, are not modelled.
- `Dashboard.TallySales`: the order of the entries before sorting is not stated. In the source it is the key order of `itemSales`; JavaScript lists integer-like keys first. With equal counts this order decides which entries the stable sort keeps in the top five.
- `Dashboard.SortByCountDesc`: the sort is a stable insertion sort. Only "non-increasing counts" and "same entries" are proved, not stability.
- `Dashboard.DashboardStats` and `Dashboard.TopSellingItems` leave out the `!menuItems` guard. The menu context always supplies an array, so that guard never fires.
- `MenuAdmin.MenuPage.HandleSaveItem`: the add path writes no `stock` field, because the form has none. In the source the stock checks then compare against `undefined` and never refuse. The model's stock is always an integer, so this is not captured.
- `MenuAdmin.MenuPage.HandleSaveItem`: the null `imageFile` field the form forwards is not modelled.
- `MenuAdmin.MenuPage.HandleSaveItem`: the random placeholder URL is a non-empty parameter.
- `Forms.ParseMenuItemForm`: the URL check is a parameter.
- `Forms.ParseMenuItemForm`: the name length counts characters. The schema's `min(3)` counts UTF-16 code units, so a name of two characters outside the Basic Multilingual Plane passes the source but not the model.
- `Forms.ParseAddItemForm`: the name length counts characters, not the UTF-16 code units the schema's `min(3)` counts, as for `Forms.ParseMenuItemForm`.
- `Cart.AddToCart`: the stock check and the choice between raising a line and appending one read the lines of the last render, while the update applies to the latest lines. Two adds batched before a re-render can both append, leaving two lines for one id. The model applies each add to the latest lines, so it does not capture that duplicate.
- Both form parsers take the price as an integer. Fractional prices and the coercion of text to a number are not modelled.
- The scan-and-serve and staff pages pass an `onMarkCompleted` callback. The details dialog as written declares no such property and offers no button that calls it. `SuperAdminOrders.ScanAndServePage.MarkCompleted` and `Orders.AdminOrdersPage.MarkSelectedCompleted` model the callback itself.
- `OrderDetails.DialogFigures` follows the dialog's declared input, the older order shape. The pages actually pass the newer order document.
- `AuthErrors.ErrorListener` does not model the `console.warn` for the silent code, the event-emitter subscription and its clean-up.
- The cart's toast texts are represented by the `StockLimitReached` outcome.
