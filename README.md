# OrionNexus wholesale dashboard — a Dafny model

OrionNexus is a dashboard for distributors and wholesalers. It keeps products, orders,
partnership requests, notifications and companies in one in-memory store. A wholesaler
signs in, sells from a cart, pulls sales from a point-of-sale (POS) system, places
purchase orders with distributors and answers partnership requests. A distributor
follows orders, notifications and its wholesalers.

This project models the logic behind those screens and proves what it promises:

- The store (`DataStore`) is a class with five sequence fields. Its ten mutators are
  methods, each specified by a function of the old collection. Lemmas about those
  functions state what changes and what does not.
- The POS bridge (`PosSync`) and the sign-in session (`Auth`) are classes whose methods
  step the hook's and the context's state.
  - `SyncSalesFromPOS` walks sales and their items in nested loops. It is proved against
    a restock fold and an alert fold.
- The screens that keep state have a class each: the sales register, the partnership
  ordering and the request desk. Their handlers are proved against pure functions.
- The read-only screens are functions with lemmas about them: filters, counts, sums, a
  stable sort and classifications.
- `Seqs` holds the shared `filter`, `map` and `reduce` with their algebra. `Text` holds
  ASCII lower-casing, substring search and a code-point string order.

Modelling choices:

- Money is an exact `real`. Stock and quantities are `int`.
- Ids and timestamps come from `Date.now()` in the source. Here the caller passes them
  in, and they need not be unique.
- The POS service's answers are inputs: whether a push was accepted, and the list of
  sales fetched, if any.
- The sync reads stock from the product list it captured when it started, as the source
  does. `TwoItemsNoCompounding` states the consequence: two items of the same product in
  one sync do not add up their decrements.
- `handleStatusUpdate` is the same in the distributor's order list
  (distributor/OrdersPage.tsx:33-36) and the wholesaler's purchase orders
  (wholesaler/PurchaseOrdersPage.tsx:36-39). `OrdersPage.HandleStatusUpdate` models both.

## Model

| member | source | states |
|---|---|---|
| Types.FindProduct | src/hooks/usePOSSync.ts:126 | `find` by id: a result exactly when some product has that id, and the result has that id |
| Types.FindProductFirst | src/hooks/usePOSSync.ts:126 | the product found is in the list, and no earlier product has that id |
| DataStore.UpdateProducts | src/context/DataContext.tsx:317-319 | same length; every product with the id gets the patch merged in, every other product is unchanged |
| DataStore.RemoveProducts | src/context/DataContext.tsx:321-323 | keeps exactly the products whose id differs |
| DataStore.SetOrderStatus | src/context/DataContext.tsx:333-335 | same length; matching orders get the new status, the rest are unchanged |
| DataStore.UpdateRequests | src/context/DataContext.tsx:345-347 | same length; matching requests get the patch merged in, the rest are unchanged |
| DataStore.MarkRead | src/context/DataContext.tsx:357-359 | same length; matching notifications become read, the rest are unchanged |
| DataStore.UpdateProductsAbsent | src/context/DataContext.tsx:317-319 | an update for an id no product has changes nothing |
| DataStore.StockUpdateOnlyStock | src/context/DataContext.tsx:317-319 | a stock-only patch changes only the stock field of the matching products |
| DataStore.StockUpdateOverrides | src/context/DataContext.tsx:317-319 | two stock patches to one id in a row leave the second value |
| DataStore.DeleteProductAbsent | src/context/DataContext.tsx:321-323 | deleting an absent id leaves the list unchanged |
| DataStore.DeleteProductKeepsOrder | src/context/DataContext.tsx:321-323 | deletion commutes with concatenation, so the survivors keep their relative order |
| DataStore.AnyStatusTransition | src/context/DataContext.tsx:333-335 | any target status is accepted from any current status, and only the status field changes |
| DataStore.MarkReadIdempotent | src/context/DataContext.tsx:357-359 | marking the same id read twice is the same as once |
| DataStore.MarkReadOnlyRead | src/context/DataContext.tsx:357-359 | a notification ends read iff it was read or has the id; no other field changes |
| DataStore.SeedOrdersConsistent | src/context/DataContext.tsx:214-251 | every seed order adds up: line totals, 13% VAT, total = subtotal + VAT |
| DataStore.Store.constructor | src/context/DataContext.tsx:303-307 | the store starts from the five seed collections |
| DataStore.Store.AddProduct | src/context/DataContext.tsx:309-315 | appends the product with the new id; nothing else changes |
| DataStore.Store.UpdateProduct | src/context/DataContext.tsx:317-319 | products become `UpdateProducts` of the old products; nothing else changes |
| DataStore.Store.DeleteProduct | src/context/DataContext.tsx:321-323 | products become `RemoveProducts` of the old products; nothing else changes |
| DataStore.Store.AddOrder | src/context/DataContext.tsx:325-331 | appends the order with the new id; nothing else changes |
| DataStore.Store.UpdateOrderStatus | src/context/DataContext.tsx:333-335 | orders become `SetOrderStatus` of the old orders; nothing else changes |
| DataStore.Store.AddWholesalerRequest | src/context/DataContext.tsx:337-343 | appends the request with the new id; nothing else changes |
| DataStore.Store.UpdateWholesalerRequest | src/context/DataContext.tsx:345-347 | requests become `UpdateRequests` of the old requests; nothing else changes |
| DataStore.Store.AddNotification | src/context/DataContext.tsx:349-355 | prepends the notification with the new id; nothing else changes |
| DataStore.Store.MarkNotificationAsRead | src/context/DataContext.tsx:357-359 | notifications become `MarkRead` of the old ones; nothing else changes |
| DataStore.Store.AddCompany | src/context/DataContext.tsx:361-367 | appends the company with the new id; nothing else changes |
| Auth.FindByEmail | src/context/AuthContext.tsx:77 | a user is found iff one has the email, and the user found is in the list with that email |
| Auth.FindByEmailFirst | src/context/AuthContext.tsx:77 | the user found is the first one with the email |
| Auth.LoginOutcome | src/context/AuthContext.tsx:75-86 | sign-in succeeds iff a demo user has the email and the password is `demo123`; the result is that user |
| Auth.MockEmailsDistinct | src/context/AuthContext.tsx:23-60 | the four demo accounts have distinct emails |
| Auth.LoginOpensTheAccount | src/context/AuthContext.tsx:75-86 | each demo account opens with the demo password and with no other password |
| Auth.Session.constructor | src/context/AuthContext.tsx:63-64 | signed out, with the storage slot as given |
| Auth.Session.Restore | src/context/AuthContext.tsx:66-73 | a stored user is restored and marked signed in; an empty slot changes nothing |
| Auth.Session.Login | src/context/AuthContext.tsx:75-86 | succeeds iff `LoginOutcome` does; on success the user is set, signed in and stored; on failure nothing changes |
| Auth.Session.Logout | src/context/AuthContext.tsx:88-92 | clears the user, the flag and the slot |
| PosSync.PosRecord | src/hooks/usePOSSync.ts:31-44 | the record carries the product's id, name, sku, barcode, price, stock, category, brand, image, VAT rate and distributor, and the signed-in user's id as wholesaler |
| PosSync.PosRecords | src/hooks/usePOSSync.ts:31-44 | one POS record per product, in order, each being that product's record |
| PosSync.Floor0 | src/hooks/usePOSSync.ts:129 | `Math.max(0, n)`: never negative, never below n, and n itself when n is not negative |
| PosSync.ApplyItem | src/hooks/usePOSSync.ts:126-130 | one sale item keeps the product list's length |
| PosSync.Restock | src/hooks/usePOSSync.ts:120-145 | the stock updates of all items keep the product list's length |
| PosSync.AlertFor | src/hooks/usePOSSync.ts:131-142 | at most one alert; one exactly when the product is known and its unfloored new stock is at or below the minimum; it is an unread high-priority low-stock notice |
| PosSync.Alerts | src/hooks/usePOSSync.ts:125-144 | at most one alert per item; all are high-priority low-stock notices |
| PosSync.Prepended | src/hooks/usePOSSync.ts:133-157 | notifications added one by one end up in front of the old list, which follows unchanged |
| PosSync.PrependedNewestFirst | src/hooks/usePOSSync.ts:133-157 | the added notifications come first, the last one added at the head |
| PosSync.LowStockAlert | src/hooks/usePOSSync.ts:131-140 | an unread high-priority low-stock notice naming the product, stamped now, whose message starts with the product name |
| PosSync.SummaryNotice | src/hooks/usePOSSync.ts:149-156 | an unread medium-priority system notice stamped now, whose message starts with the sale count |
| PosSync.ProductsPushedNotice | src/hooks/usePOSSync.ts:54-61 | an unread low-priority system notice stamped now, whose message starts with the number of products sent |
| PosSync.SaleIds | src/hooks/usePOSSync.ts:160 | the ids of the sales, in order |
| PosSync.RestockNonNegative | src/hooks/usePOSSync.ts:128-129 | the sync never makes a stock negative |
| PosSync.ApplyItemSetsStock | src/hooks/usePOSSync.ts:126-130 | a known item sets each matching product's stock to max(0, snapshot stock − quantity) and touches nothing else |
| PosSync.UnknownItemIgnored | src/hooks/usePOSSync.ts:126-127 | an item for an unknown product changes no stock and raises no alert |
| PosSync.LastItemWins | src/hooks/usePOSSync.ts:125-130 | of two consecutive items for one product, only the second one's stock survives |
| PosSync.SameProductPair | src/hooks/usePOSSync.ts:125-130 | two items for one product restock as the second item alone |
| PosSync.RestockOnlyStock | src/hooks/usePOSSync.ts:120-145 | a whole batch changes at most each product's stock; every other field is kept |
| PosSync.RestockUntouched | src/hooks/usePOSSync.ts:125-129 | a product no known item of the batch is for keeps its record |
| PosSync.RestockLastWins | src/hooks/usePOSSync.ts:125-129 | a product some known item is for gets max(0, snapshot stock − quantity of the last such item) |
| PosSync.TwoItemsNoCompounding | src/hooks/usePOSSync.ts:126-129 | two items for one product leave max(0, snapshot stock − second quantity), not both decrements |
| PosSync.PosBridge.constructor | src/hooks/usePOSSync.ts:8-12 | not syncing, the stored sync time restored, connection `checking` |
| PosSync.PosBridge.TestConnection | src/hooks/usePOSSync.ts:18-23 | the result is the health answer, and the status becomes connected or disconnected to match |
| PosSync.PosBridge.SyncProductsToPOS | src/hooks/usePOSSync.ts:26-74 | no user: nothing sent; otherwise every product is sent, and on acceptance the sync time is set and a low-priority notice prepended; the spinner is cleared |
| PosSync.PosBridge.SyncProductToPOS | src/hooks/usePOSSync.ts:77-104 | sends the one product's record iff a user is signed in; succeeds iff also accepted |
| PosSync.PosBridge.ProcessItem | src/hooks/usePOSSync.ts:126-142 | one item: products become `ApplyItem`, and its alert, if any, is prepended |
| PosSync.PosBridge.ProcessSale | src/hooks/usePOSSync.ts:125-144 | one sale: products become `Restock` over its items, and its alerts are prepended in order |
| PosSync.PosBridge.ProcessSales | src/hooks/usePOSSync.ts:119-145 | all sales in order: the revenue is the sum of the sale totals, products become `Restock` over all their items, and all their alerts are prepended in order |
| PosSync.PosBridge.SyncSalesFromPOS | src/hooks/usePOSSync.ts:107-173 | no user or no data: nothing changes. Otherwise the counters are the sale count and revenue sum; products are restocked from the snapshot; alerts and then, for a non-empty batch, the summary are prepended; the ids are acknowledged; the sync time is set |
| PosSync.PosBridge.AutoSyncTick | src/hooks/usePOSSync.ts:176-184 | a tick syncs iff the connection is `connected`, and then has exactly the effect of `SyncSalesFromPOS` on products, notifications, sync time and acknowledged ids; otherwise nothing changes. Orders, requests, companies and the connection are never touched |
| SalesPage.SearchResults | src/components/wholesaler/SalesPage.tsx:14-18 | exactly the products whose lower-cased name or sku contains the lower-cased term, or whose barcode contains it |
| SalesPage.EmptySearchKeepsAll | src/components/wholesaler/SalesPage.tsx:14-18 | an empty search shows every product in order |
| SalesPage.Bump | src/components/wholesaler/SalesPage.tsx:23-27 | lines for the product get one more unit; the other lines are unchanged |
| SalesPage.SetQuantity | src/components/wholesaler/SalesPage.tsx:38-40 | lines for the id get the quantity; the other lines are unchanged |
| SalesPage.Remove | src/components/wholesaler/SalesPage.tsx:44-46 | keeps exactly the lines with another id |
| SalesPage.Update | src/components/wholesaler/SalesPage.tsx:34-42 | a quantity of 0 or less keeps exactly the lines with another id; a positive one sets it on the matching lines and keeps the rest |
| SalesPage.CartTotalsAppend | src/components/wholesaler/SalesPage.tsx:48-49 | one more line adds price × quantity to the total and its quantity to the count |
| SalesPage.Checkout | src/components/wholesaler/SalesPage.tsx:51-67 | empty cart, missing customer and completed are decided iff: no lines; lines and a blank name; lines and a name |
| SalesPage.AddExisting | src/components/wholesaler/SalesPage.tsx:20-27 | adding a product already in the cart increments its line and leaves the others |
| SalesPage.AddNew | src/components/wholesaler/SalesPage.tsx:28-30 | adding a new product appends one line of quantity 1 |
| SalesPage.AddKeepsWellFormed | src/components/wholesaler/SalesPage.tsx:20-32 | adding keeps one line per product and positive quantities |
| SalesPage.RemoveKeepsWellFormed | src/components/wholesaler/SalesPage.tsx:44-46 | removing keeps the cart well formed |
| SalesPage.UpdateKeepsWellFormed | src/components/wholesaler/SalesPage.tsx:34-42 | a quantity change (removal at 0 or below) keeps the cart well formed |
| SalesPage.UpdateSets | src/components/wholesaler/SalesPage.tsx:34-42 | a positive quantity is set on the matching line only |
| SalesPage.AddCountsOne | src/components/wholesaler/SalesPage.tsx:20-49 | adding raises the cart quantity by exactly one |
| SalesPage.BumpCountsOne | src/components/wholesaler/SalesPage.tsx:22-27 | incrementing an existing line raises the cart quantity by one |
| SalesPage.BumpAbsent | src/components/wholesaler/SalesPage.tsx:23-27 | incrementing an absent product changes nothing |
| SalesPage.RemoveSubtracts | src/components/wholesaler/SalesPage.tsx:44-49 | removing a line lowers the quantity and the total by exactly that line's |
| SalesPage.QuickSaleTotals | src/components/wholesaler/SalesPage.tsx:48-72 | a quick-sale cart holds one unit at the product's price |
| SalesPage.Register.constructor | src/components/wholesaler/SalesPage.tsx:8-12 | empty cart, no customer, cart hidden |
| SalesPage.Register.AddToCart | src/components/wholesaler/SalesPage.tsx:20-32 | the cart becomes `Add` of the old cart and stays well formed |
| SalesPage.Register.UpdateQuantity | src/components/wholesaler/SalesPage.tsx:34-42 | the cart becomes `Update` of the old cart and stays well formed |
| SalesPage.Register.RemoveFromCart | src/components/wholesaler/SalesPage.tsx:44-46 | the cart becomes `Remove` of the old cart |
| SalesPage.Register.HandleCheckout | src/components/wholesaler/SalesPage.tsx:51-67 | the outcome is `Checkout`; a completed sale clears cart and name and hides the cart; otherwise nothing changes |
| SalesPage.Register.HandleQuickSale | src/components/wholesaler/SalesPage.tsx:69-72 | the cart becomes the one product at quantity 1 and is shown |
| PartnershipDetails.ProductsOf | src/components/wholesaler/PartnershipDetails.tsx:19 | exactly the products whose distributor is the company |
| PartnershipDetails.Listing | src/components/wholesaler/PartnershipDetails.tsx:18-24 | a distributor's entry carries its products and their number |
| PartnershipDetails.Partners | src/components/wholesaler/PartnershipDetails.tsx:15-25 | every listed entry is a distributor company with at least one product, with its listing |
| PartnershipDetails.PartnersComplete | src/components/wholesaler/PartnershipDetails.tsx:15-25 | every distributor with at least one product is listed |
| PartnershipDetails.Select | src/components/wholesaler/PartnershipDetails.tsx:33-42 | unknown product: no change; checking appends an entry at the product's price; unchecking keeps exactly the other products' entries |
| PartnershipDetails.ChangeQuantity | src/components/wholesaler/PartnershipDetails.tsx:44-48 | entries for the product get the quantity; the others are unchanged |
| PartnershipDetails.OrderLine | src/components/wholesaler/PartnershipDetails.tsx:58-71 | the line has the entry's product, quantity and price, and its totals are consistent at the product's VAT rate |
| PartnershipDetails.OrderLines | src/components/wholesaler/PartnershipDetails.tsx:58-71 | one line per entry with its product, quantity and price, total = quantity × price, VAT from the product's rate |
| PartnershipDetails.PurchaseOrderConsistent | src/components/wholesaler/PartnershipDetails.tsx:58-90 | the order's money adds up, it is pending, created by the user for the distributor, one line per entry, subtotal = Σ quantity × price |
| PartnershipDetails.PurchaseNotice | src/components/wholesaler/PartnershipDetails.tsx:95-104 | an unread medium-priority order-placed notice stamped now, naming the company and the order number; the message starts with the company and ends with the order number |
| PartnershipDetails.LineTotals | src/components/wholesaler/PartnershipDetails.tsx:58-73 | the line totals sum to Σ quantity × price over the selection |
| PartnershipDetails.PartnerOrdering.constructor | src/components/wholesaler/PartnershipDetails.tsx:10-13 | nothing selected, both modals closed |
| PartnershipDetails.PartnerOrdering.ViewDistributor | src/components/wholesaler/PartnershipDetails.tsx:28-31 | the distributor is selected and its modal opened |
| PartnershipDetails.PartnerOrdering.HandleProductSelection | src/components/wholesaler/PartnershipDetails.tsx:33-42 | the selection becomes `Select` with the default quantity 1 when none is given |
| PartnershipDetails.PartnerOrdering.HandleQuantityChange | src/components/wholesaler/PartnershipDetails.tsx:44-48 | the selection becomes `ChangeQuantity` |
| PartnershipDetails.PartnerOrdering.HandleCreateOrder | src/components/wholesaler/PartnershipDetails.tsx:50-110 | nothing selected, or no distributor or user: nothing changes. Otherwise the purchase order is appended, its notice prepended, the selection cleared and the modals closed |
| WholesalerRequests.MyRequests | src/components/wholesaler/WholesalerRequests.tsx:15 | exactly the requests addressed to the signed-in user |
| WholesalerRequests.NoUserNoRequests | src/components/wholesaler/WholesalerRequests.tsx:15 | signed out, the inbox is empty |
| WholesalerRequests.StatusCountsAddUp | src/components/wholesaler/WholesalerRequests.tsx:128-171 | the pending, approved and rejected cards add up to the total |
| WholesalerRequests.Select | src/components/wholesaler/WholesalerRequests.tsx:23-29 | checking appends the entry; unchecking keeps exactly the other products' entries |
| WholesalerRequests.ChangeQuantity | src/components/wholesaler/WholesalerRequests.tsx:31-35 | entries for the product get the quantity; the others are unchanged |
| WholesalerRequests.AcceptEffect | src/components/wholesaler/WholesalerRequests.tsx:43-47 | accepting sets status, response date and chosen products, and nothing else |
| WholesalerRequests.RejectEffect | src/components/wholesaler/WholesalerRequests.tsx:68-71 | rejecting sets status and response date and keeps any earlier selection |
| WholesalerRequests.DecisionNotice | src/components/wholesaler/WholesalerRequests.tsx:49-58 | an unread medium-priority request notice stamped now, naming the company and the request; the message starts with the company |
| WholesalerRequests.DecisionNoticeTellsOutcome | src/components/wholesaler/WholesalerRequests.tsx:49-82 | an approval and a rejection differ in both title and message |
| WholesalerRequests.RequestDesk.constructor | src/components/wholesaler/WholesalerRequests.tsx:10-12 | no request open, nothing selected |
| WholesalerRequests.RequestDesk.ViewRequest | src/components/wholesaler/WholesalerRequests.tsx:17-21 | opens the request with an empty selection |
| WholesalerRequests.RequestDesk.HandleProductSelection | src/components/wholesaler/WholesalerRequests.tsx:23-29 | the selection becomes `Select` with the default quantity 10 when none is given |
| WholesalerRequests.RequestDesk.HandleQuantityChange | src/components/wholesaler/WholesalerRequests.tsx:31-35 | the selection becomes `ChangeQuantity` |
| WholesalerRequests.RequestDesk.HandleAcceptRequest | src/components/wholesaler/WholesalerRequests.tsx:37-65 | an empty selection changes nothing; otherwise the request is approved with the selection, a notice prepended, and the modal closed and cleared |
| WholesalerRequests.RequestDesk.HandleRejectRequest | src/components/wholesaler/WholesalerRequests.tsx:67-88 | the request is rejected, a notice prepended and the modal closed; the selection is kept |
| OrdersPage.FilteredOrders | src/components/distributor/OrdersPage.tsx:12-14 | exactly the orders whose status name equals the filter, or all of them for an empty filter |
| OrdersPage.NoFilterShowsAll | src/components/distributor/OrdersPage.tsx:12-14 | an empty filter shows every order in order |
| OrdersPage.StatusNamesDistinct | src/components/distributor/OrdersPage.tsx:12-14 | two statuses have the same name iff they are equal |
| OrdersPage.FilterByStatus | src/components/distributor/OrdersPage.tsx:12-14 | filtering by a status's name keeps an order iff it has that status |
| OrdersPage.FilterKeepsOrder | src/components/distributor/OrdersPage.tsx:12-14 | the filter commutes with concatenation, so it never reorders |
| OrdersPage.NextStatus | src/components/distributor/OrdersPage.tsx:164-188 | a row has a forward button iff the order is pending, processing or shipped; it moves exactly one stage on and never to cancelled |
| OrdersPage.ModalOffersPath | src/components/distributor/OrdersPage.tsx:267-278 | the modal offers exactly the four non-cancelled statuses; from any status past pending it offers an earlier one |
| OrdersPage.HandleStatusUpdate | src/components/distributor/OrdersPage.tsx:33-36 | the store's orders become `SetOrderStatus` with the given id and status; nothing else changes |
| OrdersPage.RowButtonAdvances | src/components/distributor/OrdersPage.tsx:164-188 | pressing a row's button moves that order exactly one stage along |
| OrdersPage.StatusesPartition | src/components/distributor/OrdersPage.tsx:38-44 | the five status counts add up to the number of orders |
| OrdersPage.StatsBound | src/components/distributor/OrdersPage.tsx:38-44 | the four cards add up to at most the total; the gap is the cancelled orders |
| PurchaseOrdersPage.PurchaseOrders | src/components/wholesaler/PurchaseOrdersPage.tsx:14 | exactly the orders the signed-in user created |
| PurchaseOrdersPage.StatsBound | src/components/wholesaler/PurchaseOrdersPage.tsx:41-44 | pending plus approved (processing) orders are at most the total |
| PurchaseOrdersPage.TotalValueAppend | src/components/wholesaler/PurchaseOrdersPage.tsx:44 | the total value grows by exactly each added order's total |
| PurchaseOrdersPage.RowAction | src/components/wholesaler/PurchaseOrdersPage.tsx:167-173 | the row's Accept button exists iff the order is pending, and moves it to processing |
| PurchaseOrdersPage.ModalMatchesProgression | src/components/wholesaler/PurchaseOrdersPage.tsx:321-343 | the modal's buttons follow the distributor's forward path, and the row button is its first step |
| WholesalerInventory.Filtered | src/components/wholesaler/WholesalerInventory.tsx:11-16 | exactly the products whose name or sku contains the term ignoring case, and whose category matches a non-empty filter |
| WholesalerInventory.FilteredIsOneFilter | src/components/wholesaler/WholesalerInventory.tsx:11-16 | the two chained filters equal one filter by both tests, so the kept products keep their list order |
| WholesalerInventory.EmptyFilterShowsAll | src/components/wholesaler/WholesalerInventory.tsx:11-16 | no term and no category show every product in order |
| WholesalerInventory.PrecedesTransitive | src/components/wholesaler/WholesalerInventory.tsx:17-30 | every key's comparator is a strict order: transitive and irreflexive |
| WholesalerInventory.Insert | src/components/wholesaler/WholesalerInventory.tsx:17-30 | inserting adds exactly the one element |
| WholesalerInventory.SortBy | src/components/wholesaler/WholesalerInventory.tsx:17-30 | sorting is a permutation |
| WholesalerInventory.InsertOrdered | src/components/wholesaler/WholesalerInventory.tsx:17-30 | inserting into a key-ordered list keeps it key-ordered |
| WholesalerInventory.SortByOrdered | src/components/wholesaler/WholesalerInventory.tsx:17-30 | the sorted list is a key-ordered permutation of the input |
| WholesalerInventory.OrderedMeans | src/components/wholesaler/WholesalerInventory.tsx:17-30 | key order is non-increasing stock or price, and ascending name or category |
| WholesalerInventory.SortByStable | src/components/wholesaler/WholesalerInventory.tsx:17-30 | the sort is stable: products the comparator ties (it returns 0 both ways) come out in their input order |
| WholesalerInventory.UnknownKeyKeepsOrder | src/components/wholesaler/WholesalerInventory.tsx:27-28 | an unknown key leaves the order unchanged |
| WholesalerInventory.Shown | src/components/wholesaler/WholesalerInventory.tsx:11-30 | the shown list is a key-ordered permutation of the filtered list, and the filtered list itself for an unknown key |
| WholesalerInventory.LowStock | src/components/wholesaler/WholesalerInventory.tsx:32 | exactly the products with stock at or below the minimum |
| WholesalerInventory.TotalsAppend | src/components/wholesaler/WholesalerInventory.tsx:34-35 | a product adds its stock to the total stock and stock × price to the total value |
| WholesalerInventory.TotalValueNonNegative | src/components/wholesaler/WholesalerInventory.tsx:35 | with no negative stock or price the total value is not negative |
| WholesalerInventory.Distinct | src/components/wholesaler/WholesalerInventory.tsx:37 | no duplicates, and the same values as the input |
| WholesalerInventory.Categories | src/components/wholesaler/WholesalerInventory.tsx:37 | no duplicates; every product's category is there, and nothing else |
| WholesalerInventory.Status | src/components/wholesaler/WholesalerInventory.tsx:215-223 | Low Stock iff stock ≤ minimum, Warning iff minimum < stock ≤ 2 × minimum, In Stock otherwise |
| WholesalerInventory.ReorderIffLow | src/components/wholesaler/WholesalerInventory.tsx:231 | Reorder is shown iff the status is Low Stock iff the product is in the low-stock card |
| NotificationsPage.Filtered | src/components/distributor/NotificationsPage.tsx:75-80 | exactly the notifications the filter value keeps |
| NotificationsPage.AllKeepsAll | src/components/distributor/NotificationsPage.tsx:76 | `all` keeps every notification in order |
| NotificationsPage.FilterMeans | src/components/distributor/NotificationsPage.tsx:77-79 | `unread` keeps exactly the unread ones, `high` exactly the high-priority ones, a type name exactly that type |
| NotificationsPage.TypeNamesDistinct | src/components/distributor/NotificationsPage.tsx:79 | type names are distinct and none is `all`, `unread` or `high` |
| NotificationsPage.UnreadCountIsUnreadFilter | src/components/distributor/NotificationsPage.tsx:122 | the unread count is the length of the `unread` list |
| NotificationsPage.SamplesUnread | src/components/distributor/NotificationsPage.tsx:8-73 | three of the six samples are unread |
| WholesalerPayments.Filtered | src/components/wholesaler/WholesalerPayments.tsx:67-71 | a payment is kept iff it matches both filters, an empty filter matching anything |
| WholesalerPayments.NoFilterShowsAll | src/components/wholesaler/WholesalerPayments.tsx:67-71 | with both filters empty every payment is kept in order |
| WholesalerPayments.CountsBound | src/components/wholesaler/WholesalerPayments.tsx:130-133 | completed + pending + failed ≤ total |
| WholesalerPayments.AmountsBound | src/components/wholesaler/WholesalerPayments.tsx:134-135 | with no negative amounts, received + pending ≤ the sum of all amounts |
| WholesalerPayments.MethodName | src/components/wholesaler/WholesalerPayments.tsx:114-127 | the four codes get their labels; any other code is returned unchanged |
| WholesalerPayments.MethodNamesDistinct | src/components/wholesaler/WholesalerPayments.tsx:114-127 | the four labels are distinct |
| WholesalerPayments.SummaryIsFilteredCompleted | src/components/wholesaler/WholesalerPayments.tsx:305-308 | a method's card covers exactly the list the filters show for completed payments of that method |
| WholesalerPayments.SummaryWithinCompleted | src/components/wholesaler/WholesalerPayments.tsx:305-308 | with no negative amounts, a method's count and total stay within all completed payments |
| WholesalerPayments.SampleCompleted | src/components/wholesaler/WholesalerPayments.tsx:9-65 | the samples give three completed payments worth 2373.25 |
| WholesalerPayments.SamplePending | src/components/wholesaler/WholesalerPayments.tsx:9-65 | the samples give one pending payment worth 1356 |
| InvoicesPage.SamplesConsistent | src/components/wholesaler/InvoicesPage.tsx:9-80 | every sample invoice has line total = quantity × price, subtotal = Σ lines, VAT = 13%, total = subtotal + VAT |
| InvoicesPage.Filtered | src/components/wholesaler/InvoicesPage.tsx:82-84 | an empty filter keeps all invoices; otherwise exactly those with the status |
| InvoicesPage.CountsBound | src/components/wholesaler/InvoicesPage.tsx:102-105 | paid + pending + overdue ≤ total |
| InvoicesPage.PendingAmountSplits | src/components/wholesaler/InvoicesPage.tsx:108 | the pending amount is the pending invoices' total plus the overdue invoices' total |
| InvoicesPage.AmountsBound | src/components/wholesaler/InvoicesPage.tsx:106-108 | with no negative totals, paid + pending amount ≤ total amount |
| WholesalersPage.Stats | src/components/distributor/WholesalersPage.tsx:68-70 | the total is the number of wholesalers and active ≤ total |
| WholesalersPage.StatsAppend | src/components/distributor/WholesalersPage.tsx:68-70 | a wholesaler adds one to the total, one to active if active, and its purchases to the revenue |
| WholesalersPage.SamplesAllActive | src/components/distributor/WholesalersPage.tsx:9-69 | all three samples are active |
| WholesalersPage.BadgeFor | src/components/distributor/WholesalersPage.tsx:295-300 | Low iff stock ≤ 30, Medium iff 30 < stock ≤ 50, Good iff stock > 50 |
| WholesalersPage.BadgeMonotone | src/components/distributor/WholesalersPage.tsx:295-300 | more stock never gives a worse badge |

## Left out

- The POS network client (src/services/posApi.ts is not part of this model). Its answers are inputs: the success flag of a push, and `Some(sales)` or `None` for a fetch.
- `handlePOSWebhook` only logs and is not modelled.
- Asynchrony and timers are left out: `await`, the five-minute `setInterval`, its cleanup and the mount-time connection test. `AutoSyncTick` models one tick of the interval.
- A thrown exception inside a sync is not modelled (src/hooks/usePOSSync.ts:168-172). A throw before the sales loop, such as a failed fetch, behaves like a missing answer: nothing changes and the spinner is cleared. A throw partway through the loop, for instance a sale without a `products` list, does not. The earlier sales' restocks and low-stock alerts stay applied, but there is no summary notice, no acknowledgement and no new sync time. The next sync then fetches the same sales again from the old sync time and computes stock from the already lowered products, so a sale can be subtracted twice.
- `localStorage` is one abstract slot for the signed-in user and one for the last sync time. JSON encoding is not modelled.
- Toasts, rendering, modals that only open and close, and routing are left out.
- `handleCreateOrder` on the purchase-orders screen (src/components/wholesaler/PurchaseOrdersPage.tsx:31-34) only shows a toast and closes its modal. It creates nothing, so it is not modelled.
- `markAsRead` and `markAllAsRead` on the distributor's notifications screen (src/components/distributor/NotificationsPage.tsx:112-120) only log. They change nothing, so they are not modelled.
- Product fields that no modelled operation reads or writes are left out of `Product`: `wholesalerPrice`, `manufacturerName`, `manufacturerAddress`, `importerName`, `importerPAN`, `batchNumber`, `manufacturingDate`, `expiryDate`, `netWeight` and `grossWeight` (src/types/index.ts:14-27).
- The optional `distributorId` and `wholesalerId` of a notification (src/types/index.ts:114-115) are left out of `Notification`. No modelled handler sets them.
- The quantity fields parse their text with `parseInt` (src/components/wholesaler/PartnershipDetails.tsx:358, src/components/wholesaler/WholesalerRequests.tsx:342). The parse is not modelled, and neither is its `NaN` for an empty field, which would flow into the order totals. `HandleQuantityChange` takes an `int`.
- `discountAmount` on orders and order lines (src/types/index.ts:71,84) is left out. No modelled screen sets or reads it.
- PartnershipDetails.PartnerOrdering.HandleCreateOrder: one clock reading (`now`) stamps both the order date and the notice; the source calls `new Date()` for each (src/components/wholesaler/PartnershipDetails.tsx:84,99).
- PosSync.PosBridge.SyncSalesFromPOS: each call takes one clock reading and one id for every notice it adds. The source reads the clock once per notice.
- Revenue formatting (`toLocaleString`) is left out. `SummaryNotice` carries the sale count and the fixed text around the revenue, but not the formatted amount.
- The sale total is taken as the POS reports it. Nothing relates it to its items.
- `Math.round(cartTotal * 0.13)` on the sales screen and the average order value on the wholesalers screen are floating-point display values, not modelled.
- Text.Compare: `localeCompare` is modelled as code-point order. `toLowerCase` and `trim` are ASCII only.
- The session user's `company` is a plain string (src/context/AuthContext.tsx:8). `user.company.name` and `user.company.address` are therefore inputs (`companyName`, `companyAddress`), not derived from the user.
- WholesalerRequests.RequestDesk.HandleAcceptRequest: with no open request the source would fail on `selectedRequest.id`. The model returns `NoRequest` and changes nothing. `HandleRejectRequest` does the same.
- PartnershipDetails.PurchaseOrder: one clock reading (`stamp`) makes both the `PO-` order number and the `PO-INV-` invoice number. The source calls `Date.now()` twice (src/components/wholesaler/PartnershipDetails.tsx:78,85).
- WholesalersPage.ProductCount: the count shown is the length of the product list by definition, so there is nothing further to prove.
- The products count and status badges of the wholesaler cards, the status colours and the icon choices are presentation only.
- The reports, home and product-form screens are left out. Their counts restate the low-stock predicate and the status counts modelled here.
- Sample invoice cards are not computed for the samples. `CountsBound`, `PendingAmountSplits` and `AmountsBound` hold for any list.
