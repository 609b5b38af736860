# Inventory management: entity stores and read models, in Dafny

This project models the core of an Angular inventory-management front end: products,
suppliers and stock orders, kept by three REST-backed services that fall back to
module-level mock arrays when a request fails. On top of those stores sit the dashboard
statistics, the order tracker and the product views.

What is modelled:

- **The three entity stores** (`ProductService`, `SupplierService`, `OrderService`). They
  share one structure, so `EntityStore.Store<T>` models all three. A store has a fallback
  array (`MOCK_*`) and a cache (the array the `BehaviorSubject` publishes). Both are
  `MutableList` objects, so they can alias. They do alias after a failed initial load,
  because the subject then publishes `MOCK_*` itself. Every remote call is an input value,
  `Succeeded(v)` or `Failed`. Publishing is assigning a fresh list to `cache`. `create`,
  `update` and `delete` are modelled on both paths, as in-place `push`, index assignment and
  `splice`, including what these do when the cache *is* the fallback array:
  - a fallback create puts the new entity into the cache twice;
  - a successful update while aliased also overwrites the fallback;
  - a fallback update while aliased searches the cache after the fallback was already
    overwritten.

  Each service module instantiates the store with its seed and its id accessors, and proves
  what the seed implies (the first fallback create assigns id 4, 4 and 3).
- **The read models.**
  - Dashboard statistics: counts, inventory value, units in stock, average price, low-stock
    and pending lists, the completed count, and the five most recent orders. A `Dashboard`
    object's `CalculateStats` sorts its order array in place. That array is the order
    service's fallback array whenever `getAll` failed.
  - The order tracker's type/status filters, its completed inflow/outflow totals, its
    pending count, and its product map, which is only ever added to.
  - The product detail page's all-status inflow/outflow.
- **The classification functions**: the three-way stock status and its CSS class (product
  list, product detail, `ProductDetail`), the low-stock pipe, `isLowStock`, `isCompleted`,
  the order type label, and the supplier display name with its `Unknown` default.

Ids, quantities and dates are unbounded integers. An order's `orderDate` is the timestamp
its ISO string denotes. Prices are exact `real`s. An order's optional `status` is an
`Option`.

Behaviour of the code that the model keeps:

- `calculateStats` is not pure: it sorts `this.orders` in place
  (src/app/components/dashboard/dashboard.ts:130-132). After a failed `getAll` that array
  is `MOCK_ORDERS` itself, so the sort reorders the order service's fallback data
  (`DashboardComponent.DashboardSortReordersOrderFallback`). The pending list is taken
  before the sort, so a second calculation filters the sorted array and can list the same
  pending orders in a different order (`DashboardComponent.SecondCalculationReordersPending`).
- A fallback create after a failed initial load puts the new entity into the cache twice:
  the cache is then the fallback array, which receives one `push` and is then published
  with the entity appended again (`ProductService.FailedLoadThenCreate`).
- The low-stock, by-type and pending queries do not filter: their filters sit inside
  `tap`, which discards them (see Findings).
- A fallback create numbers the new entity from the fallback array alone
  (src/services/product.service.ts:84). After a successful load the cache holds the
  server's entities, so the new entity can take an id the server already uses, and lookups
  by that id then find the server's entity (`ProductService.LoadedThenFallbackCreateReusesId`).
- The stores never default an order's `status` to PENDING; an order keeps whatever status
  the caller passes.

## Model

| member | source | states |
|---|---|---|
| EntityStore.MutableList.constructor | src/services/product.service.ts:88 | a new array (`[...current, x]`, `[...current]`) holds exactly the given elements |
| EntityStore.MutableList.Push | src/services/product.service.ts:86 | `push` appends exactly one element |
| EntityStore.MutableList.Set | src/services/product.service.ts:107 | index assignment changes that position only |
| EntityStore.MutableList.Splice | src/services/product.service.ts:129 | `splice(i, 1)` removes that position; the rest keep their order |
| EntityStore.FindIndex | src/services/product.service.ts:98 | -1 exactly when no element has the id; otherwise the first matching position |
| EntityStore.FirstMatchUnique | src/services/product.service.ts:105 | any first match is the position `findIndex` returns |
| EntityStore.Find | src/services/product.service.ts:70 | `None` exactly when no element has the id; otherwise the element at the first match |
| EntityStore.MaxId | src/services/product.service.ts:84 | `Math.max(...ids, 0)`: non-negative, at least every id, and 0 or one of the ids |
| EntityStore.NextId | src/services/product.service.ts:84 | the fallback id is at least 1, above every existing id, and one more than the largest id (or 1) |
| EntityStore.ReplaceFirst | src/services/product.service.ts:105-108 | same length; the first match becomes the new element; every other position is unchanged; no match means no change |
| EntityStore.RemoveFirst | src/services/product.service.ts:127-130 | no match means no change; otherwise exactly the first match is removed |
| EntityStore.WithoutId | src/services/product.service.ts:124 | no element with the id is left, only elements of the input remain, and every element with another id stays |
| EntityStore.WithoutIdKeepsOrder | src/services/product.service.ts:124 | the kept elements are in their original relative order |
| EntityStore.WithoutIdIdempotent | src/services/product.service.ts:131-132 | deleting the same id again leaves the cache as it is |
| EntityStore.WithoutIdAfterRemoveFirst | src/services/product.service.ts:127-132 | splicing the first match out before filtering does not change the filter's result |
| EntityStore.ReplaceFirstTwice | src/services/product.service.ts:104-113 | writing an entity carrying the id over the first match twice (the fallback write, then the cache write on the same array) is writing it once |
| EntityStore.FindAppendedFresh | src/services/supplier.services.ts:72-74 | an entity appended with an id above all others is the one `find` returns for that id |
| EntityStore.FindIndexAppend | src/services/product.service.ts:98 | appending after an existing match does not move the first match |
| EntityStore.Store.Load | src/services/product.service.ts:48-66 | seeds the fallback array; a failed load publishes that very array (aliased), a successful one a fresh array with the server's contents |
| EntityStore.Store.GetAll | src/services/product.service.ts:59-66 | the server's array, or on failure the fallback array object itself |
| EntityStore.Store.GetById | src/services/product.service.ts:68-75 | the server's entity; or on failure the first fallback entity with the id, `None` when there is none |
| EntityStore.Store.Create | src/services/product.service.ts:77-92 | success appends the server's entity to the cache; failure assigns `NextId`, pushes once onto the fallback, appends to the cache, which gains it twice when aliased |
| EntityStore.Store.Update | src/services/product.service.ts:94-118 | the first cache match is replaced in place and a copy published, else no publication; the failure path first writes the argument verbatim over the first fallback match; unless the failure path runs aliased, the array that held the old cache is left with its first match replaced; aliasing effects stated per case; while aliased, a failed update whose argument carries the id leaves the fallback as one write would |
| EntityStore.Store.Delete | src/services/product.service.ts:120-136 | the cache loses every entity with the id; the fallback loses its first match on the failure path only |
| ProductService.MockProducts | src/services/product.service.ts:9-40 | the seed has three products with ids 1 to 3 and no negative price or quantity |
| ProductService.WithProductId | src/services/product.service.ts:85 | `{ ...p, id: n }` has id n and otherwise equals p |
| ProductService.NewProductService | src/services/product.service.ts:48-56 | the service after construction: seeded with the three mock products; aliased exactly when the load failed |
| ProductService.SeedNextIdIsFour | src/services/product.service.ts:9-40 | against the seed the fallback id is 4 |
| ProductService.LoadedThenFallbackCreateReusesId | src/services/product.service.ts:77-92 | after a successful load holding id 4, a failed create appends a second entity with id 4 to the cache, and the first match for id 4 stays the server's entity |
| ProductService.FailedLoadThenCreate | src/services/product.service.ts:84-88 | after a failed load, a failed create pushes the product with id 4 once onto the fallback array and leaves it in the last two cache positions |
| ProductService.GetLowStockProducts | src/services/product.service.ts:138-144 | as written: emits the cache unfiltered |
| ProductService.LowStockQueryEmitsHealthyProduct | src/services/product.service.ts:138-144 | the as-written query emits the laptop, which is not low on stock |
| ProductService.SeedLowStockIsKeyboard | src/services/product.service.ts:30-39 | of the seed only the keyboard is low on stock |
| OrderService.MockOrders | src/services/order.service.ts:10-38 | the seed has three orders with ids 1 to 3, dated by three separate clock readings, the third a day before its reading |
| OrderService.WithOrderId | src/services/order.service.ts:91 | `{ ...o, id: n }` has id n and otherwise equals o |
| OrderService.NewOrderService | src/services/order.service.ts:46-64 | seeded with the mock orders; aliased exactly when the load failed |
| OrderService.SeedNextIdIsFour | src/services/order.service.ts:90 | against the seed the fallback id is 4 |
| OrderService.LoadedThenFallbackCreate | src/services/order.service.ts:89-95 | with a separate cache, a failed create appends the order with id 4 once to each array |
| OrderService.GetByProductId | src/services/order.service.ts:75-81 | on failure: exactly the fallback orders for the product, as a subsequence of the fallback array |
| OrderService.GetOrdersByType | src/services/order.service.ts:144-148 | as written: emits the cache unfiltered |
| OrderService.GetPendingOrders | src/services/order.service.ts:150-154 | as written: emits the cache unfiltered |
| OrderService.OrderQueriesEmitUnfiltered | src/services/order.service.ts:144-154 | the as-written queries emit a completed IN order both as an OUT order and as a pending one |
| SupplierService.MockSuppliers | src/services/supplier.services.ts:9-28 | the seed has two suppliers with ids 1 and 2, each with a city |
| SupplierService.WithSupplierId | src/services/supplier.services.ts:73 | `{ ...s, id: n }` has id n and otherwise equals s |
| SupplierService.NewSupplierService | src/services/supplier.services.ts:36-54 | seeded with the two mock suppliers; aliased exactly when the load failed |
| SupplierService.SeedNextIdIsThree | src/services/supplier.services.ts:9-28 | against the seed the fallback id is 3 |
| SupplierService.FailedCreateThenGetById | src/services/supplier.services.ts:56-80 | a failed create pushes exactly the input with id 3, and a failed `getById(3)` then finds it |
| SupplierService.FailedDeleteOfAbsentId | src/services/supplier.services.ts:108-124 | a failed delete of an absent id changes neither array's contents |
| Seqs.Filter | src/app/pipes/low-stock-filter.pipe.ts:11 | `filter` keeps only elements that pass, keeps every element that passes, and never grows |
| Seqs.FilterIsSubsequence | src/app/pipes/low-stock-filter.pipe.ts:11 | `filter` keeps the relative order |
| Seqs.FilterKeepsAll | src/app/components/order-tracker/order-tracker.ts:61-67 | a filter every element passes returns its input |
| Seqs.FilterIdempotent | src/app/pipes/low-stock-filter.pipe.ts:11 | filtering twice is filtering once |
| Seqs.FilterAppend | src/app/components/order-tracker/order-tracker.ts:87-97 | filtering distributes over concatenation |
| Queries.LowStockOf | src/app/components/dashboard/dashboard.ts:124 | exactly the products with `quantity <= reorderLevel` |
| Queries.OrdersOfType | src/app/components/product-detail/product-detail.ts:94 | exactly the orders of the type |
| Queries.OrdersWithStatus | src/app/components/dashboard/dashboard.ts:127 | exactly the orders with that status; an order without a status is in none |
| Queries.TotalQuantity | src/app/components/product-detail/product-detail.ts:95 | the quantity sum is never negative when no quantity is |
| Queries.TotalQuantityAppend | src/app/components/product-detail/product-detail.ts:95 | the quantity sum of a concatenation is the sum of the sums |
| Queries.OrdersOfTypeSplit | src/app/components/product-detail/product-detail.ts:92-102 | the IN and OUT orders split the orders, by count and by quantity |
| Queries.PendingPlusCompletedAtMostAll | src/app/components/dashboard/dashboard.ts:160-162 | pending plus completed never exceeds the number of orders |
| ProductModel.ProductDetail.constructor | src/models/product.model.ts:24-26 | every field is copied from the product |
| ProductModel.ProductDetail.IsLowStock | src/models/product.model.ts:28-30 | holds exactly when `quantity <= reorderLevel` |
| ProductModel.ProductDetail.GetStockStatus | src/models/product.model.ts:32-36 | Out of Stock iff quantity is 0; Low Stock iff non-zero and low; In Stock otherwise; Out of Stock with a non-negative reorder level is low on stock |
| ProductModel.OutOfStockIsLowStock | src/models/product.model.ts:32-36 | with a non-negative reorder level, out of stock implies low stock |
| OrderModel.HasStatus | src/models/order.model.ts:9 | an order without a status has none of the status values |
| OrderModel.TypeLabel | src/app/components/dashboard/dashboard.ts:139-141 | Stock In exactly for IN, Stock Out exactly for OUT |
| OrderModel.OrderDetail.constructor | src/models/order.model.ts:22-24 | every field is copied from the order |
| OrderModel.OrderDetail.GetOrderTypeLabel | src/models/order.model.ts:26-28 | Stock In exactly for IN, Stock Out exactly for OUT |
| OrderModel.OrderDetail.IsCompleted | src/models/order.model.ts:30-32 | holds exactly for COMPLETED; false without a status |
| SupplierModel.SupplierDetail.constructor | src/models/supplier.model.ts:22-24 | every field is copied from the supplier |
| SupplierModel.SupplierDetail.CityOrUnknown | src/models/supplier.model.ts:27 | the city when present and non-empty, otherwise `Unknown`; never empty |
| SupplierModel.SupplierDetail.GetDisplayName | src/models/supplier.model.ts:26-28 | starts with the name, then ` (`, the city or `Unknown`, and ends with `)` |
| Text.Digits | src/app/components/order-tracker/order-tracker.ts:70 | decimal digits, no leading zero, whose decimal value is the number |
| Text.NumberText | src/app/components/order-tracker/order-tracker.ts:70 | `${n}` reads back as n; it starts with `-` exactly for negative numbers, and all else is digits |
| Text.NumberTextInjective | src/app/components/order-tracker/order-tracker.ts:70 | different numbers have different texts |
| Text.ProductPlaceholder | src/app/components/dashboard/dashboard.ts:136 | starts with `Product #`, and the rest reads back as the id |
| Text.PlaceholderInjective | src/app/components/dashboard/dashboard.ts:136 | different ids get different placeholders |
| ProductListComponent.GetStockStatus | src/app/components/product-list/product-list.ts:53-57 | exactly one of the three labels; Out of Stock iff quantity 0; Low Stock iff non-zero and at most the reorder level; In Stock iff non-zero and above it |
| ProductListComponent.GetStatusClass | src/app/components/product-list/product-list.ts:59-63 | critical, warning and good each go exactly with their label |
| ProductListComponent.AgreesWithProductDetail | src/models/product.model.ts:32-36 | the list labels a product as its `ProductDetail` does |
| ProductDetailComponent.GetStockStatus | src/app/components/product-detail/product-detail.ts:78-83 | `''` exactly when no product is loaded; otherwise the three labels with their conditions |
| ProductDetailComponent.GetStatusClass | src/app/components/product-detail/product-detail.ts:85-90 | `''`, critical, warning and good each go exactly with `''` and the three labels |
| ProductDetailComponent.AgreesWithProductList | src/app/components/product-detail/product-detail.ts:78-90 | for a loaded product, the detail page's label and class equal the list's |
| ProductDetailComponent.GetTotalInflow | src/app/components/product-detail/product-detail.ts:92-96 | 0 for no orders; with no negative quantity, between 0 and the total of all orders |
| ProductDetailComponent.GetTotalOutflow | src/app/components/product-detail/product-detail.ts:98-102 | 0 for no orders; with no negative quantity, between 0 and the total of all orders |
| ProductDetailComponent.DetailFlowStep | src/app/components/product-detail/product-detail.ts:92-102 | one more order adds its quantity to the inflow exactly when it is IN and to the outflow exactly when it is OUT, whatever its status |
| ProductDetailComponent.InflowPlusOutflow | src/app/components/product-detail/product-detail.ts:92-102 | inflow plus outflow is the total quantity of all orders |
| ProductDetailComponent.InflowIgnoresStatus | src/app/components/product-detail/product-detail.ts:92-96 | changing any order's status leaves the inflow as it is |
| LowStockFilterPipe.Transform | src/app/pipes/low-stock-filter.pipe.ts:9-12 | null gives `[]`; otherwise exactly the low-stock input elements, never more than the input |
| LowStockFilterPipe.TransformIdempotent | src/app/pipes/low-stock-filter.pipe.ts:11 | applying the pipe to its output changes nothing |
| LowStockFilterPipe.TransformKeepsOrder | src/app/pipes/low-stock-filter.pipe.ts:11 | the output keeps the input order |
| OrderTrackerComponent.Matches | src/app/components/order-tracker/order-tracker.ts:62-66 | a passing order has the filtered type and status (so one without a status passes only ALL); with both filters at ALL every order passes |
| OrderTrackerComponent.FilteredOrders | src/app/components/order-tracker/order-tracker.ts:61-67 | every shown order passes both filters, every passing order is shown, and an order without a status shows only under ALL |
| OrderTrackerComponent.FilteredOrdersKeepsOrder | src/app/components/order-tracker/order-tracker.ts:61-67 | the shown orders are a subsequence of the orders |
| OrderTrackerComponent.FilteredAllIsEverything | src/app/components/order-tracker/order-tracker.ts:63-64 | with both filters at ALL every order is shown, in order |
| OrderTrackerComponent.GetTotalInflow | src/app/components/order-tracker/order-tracker.ts:87-91 | 0 for no orders, and 0 when the type filter is OUT or the status filter is not COMPLETED |
| OrderTrackerComponent.GetTotalOutflow | src/app/components/order-tracker/order-tracker.ts:93-97 | 0 for no orders, and 0 when the type filter is IN or the status filter is not COMPLETED |
| OrderTrackerComponent.InflowStep | src/app/components/order-tracker/order-tracker.ts:87-91 | one more order raises the inflow by its quantity exactly when it is shown, IN and COMPLETED, and otherwise leaves it |
| OrderTrackerComponent.OutflowStep | src/app/components/order-tracker/order-tracker.ts:93-97 | one more order raises the outflow by its quantity exactly when it is shown, OUT and COMPLETED, and otherwise leaves it |
| OrderTrackerComponent.InflowCountsOnlyCompleted | src/app/components/order-tracker/order-tracker.ts:87-97 | an order that is not COMPLETED adds nothing to either total |
| OrderTrackerComponent.GetPendingCount | src/app/components/order-tracker/order-tracker.ts:99-101 | 0 for no orders; at most the number of shown orders; 0 under the COMPLETED or CANCELLED status filter |
| OrderTrackerComponent.PendingCountStep | src/app/components/order-tracker/order-tracker.ts:99-101 | one more order raises the pending count by one exactly when it is shown and PENDING |
| OrderTrackerComponent.GetProductName | src/app/components/order-tracker/order-tracker.ts:69-71 | the mapped name, or `Product #id` when the id is unmapped or the name is empty |
| OrderTrackerComponent.PutAll | src/app/components/order-tracker/order-tracker.ts:51 | no key is removed, every listed id becomes a key, and no other key appears |
| OrderTrackerComponent.PutAllLastWins | src/app/components/order-tracker/order-tracker.ts:51 | each id maps to the last product in the list with that id |
| OrderTrackerComponent.PutAllKeepsOthers | src/app/components/order-tracker/order-tracker.ts:51 | ids the list does not mention keep their product |
| OrderTrackerComponent.OrderTracker.constructor | src/app/components/order-tracker/order-tracker.ts:17-22 | no orders, an empty map, both filters at ALL |
| OrderTrackerComponent.OrderTracker.LoadProducts | src/app/components/order-tracker/order-tracker.ts:48-53 | the `forEach`/`set` loop leaves the map equal to `PutAll` of the old map and the list |
| OrderTrackerComponent.OrderTracker.LoadData | src/app/components/order-tracker/order-tracker.ts:33-39 | the orders are replaced, then the products are put into the map |
| DashboardComponent.InventoryValue | src/app/components/dashboard/dashboard.ts:119-121 | the value of the stock is never negative when no price or quantity is |
| DashboardComponent.StockUnits | src/app/components/dashboard/dashboard.ts:143-145 | the units in stock are never negative when no quantity is |
| DashboardComponent.InventoryValueAppend | src/app/components/dashboard/dashboard.ts:119-121 | the value of two snapshots together is the sum of their values |
| DashboardComponent.StockUnitsAppend | src/app/components/dashboard/dashboard.ts:143-145 | the units of two snapshots together are the sum of their units |
| DashboardComponent.PriceSumAppend | src/app/components/dashboard/dashboard.ts:149 | the price sum of two snapshots together is the sum of their price sums |
| DashboardComponent.PriceSumBounds | src/app/components/dashboard/dashboard.ts:149 | n prices between lo and hi sum to between n·lo and n·hi |
| DashboardComponent.AverageProductPrice | src/app/components/dashboard/dashboard.ts:147-151 | 0 for no products; otherwise the average times the count is the price sum |
| DashboardComponent.AverageWithinBounds | src/app/components/dashboard/dashboard.ts:147-151 | the average lies between the lowest and the highest price |
| DashboardComponent.CompletedOrdersCount | src/app/components/dashboard/dashboard.ts:160-162 | 0 for no orders; with the pending count it never exceeds the number of orders |
| DashboardComponent.CompletedCountStep | src/app/components/dashboard/dashboard.ts:160-162 | one more order raises the completed count by one exactly when it is COMPLETED |
| DashboardComponent.GetProductName | src/app/components/dashboard/dashboard.ts:135-137 | the name of the first product with the id, or `Product #id` when there is none or its name is empty |
| DashboardComponent.InsertByDate | src/app/components/dashboard/dashboard.ts:131 | inserting into newest-first orders keeps them newest first and adds exactly that order |
| DashboardComponent.SortByDateDesc | src/app/components/dashboard/dashboard.ts:131 | the sort is a permutation and leaves the orders newest first |
| DashboardComponent.SortTwo | src/app/components/dashboard/dashboard.ts:131 | two orders out of date order swap |
| DashboardComponent.SortSortedIsIdentity | src/app/components/dashboard/dashboard.ts:131 | sorting newest-first orders changes nothing (stability) |
| DashboardComponent.SortIdempotent | src/app/components/dashboard/dashboard.ts:131 | sorting twice is sorting once |
| DashboardComponent.NewestSortsFirst | src/app/components/dashboard/dashboard.ts:131 | an appended order strictly newer than all others is sorted to the front, the others sorted behind it |
| DashboardComponent.RecentOrders | src/app/components/dashboard/dashboard.ts:130-132 | `min(5, n)` orders, newest first, a prefix of the sorted orders, no older than any order left out |
| DashboardComponent.Dashboard.constructor | src/app/components/dashboard/dashboard.ts:18-30 | empty snapshots and zero stats |
| DashboardComponent.Dashboard.ReceiveProducts | src/app/components/dashboard/dashboard.ts:70-74 | the products snapshot is replaced, nothing else changes |
| DashboardComponent.Dashboard.ReceiveOrders | src/app/components/dashboard/dashboard.ts:85-89 | the emitted order array is kept by reference, nothing else changes |
| DashboardComponent.Dashboard.ReceiveSuppliers | src/app/components/dashboard/dashboard.ts:100-104 | the suppliers snapshot is replaced, nothing else changes |
| DashboardComponent.Dashboard.CalculateStats | src/app/components/dashboard/dashboard.ts:113-133 | counts, value and low-stock list of the snapshots; pending orders in the pre-sort order; the order array sorted in place; the recent orders its first five |
| DashboardComponent.ProductStatsExample | src/app/components/dashboard/dashboard.ts:119-151 | products (10, 5, 2) and (20, 1, 3) give value 70, the second low on stock, 6 units, average 15 |
| DashboardComponent.OrderStatsExample | src/app/components/dashboard/dashboard.ts:127-132 | yesterday's pending order and today's completed one: pending is the first, recent is today's then yesterday's |
| DashboardComponent.BothPending | src/app/components/dashboard/dashboard.ts:127 | two pending orders both pass the pending filter, in order |
| DashboardComponent.SecondCalculationReordersPending | src/app/components/dashboard/dashboard.ts:127-132 | a second `calculateStats` over the same snapshots lists the same pending orders in a different order |
| DashboardComponent.DashboardSortReordersOrderFallback | src/app/components/dashboard/dashboard.ts:85-89 | with the order service failing, the dashboard's sort rewrites `MOCK_ORDERS`: a created order newer than every seed order goes to the front, the seed sorted behind it |
| DashboardComponent.MockSortsBehind | src/services/order.service.ts:10-38 | whatever the three clock readings, an order newer than every seed order sorts in front of the sorted seed |

## Left out

- HTTP, URLs and RxJS: every remote call is a `Remote` input, `Succeeded(v)` or `Failed`. A
  server's failure and a network error look the same, as in the code's `catchError`.
  Publishing is assigning a fresh list to `cache`. Subscribers, replay to late subscribers,
  and the fallback delete's `of()`, which emits nothing, are not modelled.
- EntityStore.Store.Load: the constructor's load is modelled as completed at once. The
  window in which the subject still holds its initial `[]` is not modelled.
- Concurrency: each store operation runs to completion before the next starts. Interleaved
  asynchronous completions are not modelled.
- Dashboard load orchestration (`loadDashboardData`, its timeout, `Promise.all`) and the
  `loading`/`error` flags: these are timing and UI state. The timeout can make
  `calculateStats` run twice. That case is covered by calling `CalculateStats` twice.
- `getTodayOrders`: it depends on the wall clock and the locale's date formatting.
- Dates: `orderDate` is an integer timestamp. ISO string parsing (`new Date(...).getTime()`)
  is not modelled. The seed's three clock readings are the parameters `t1`, `t2` and `t3`;
  nothing is assumed about how they relate.
- Floating point: prices, the value sum and the average are exact reals, with no rounding.
  JavaScript numbers are doubles, but ids and quantities are unbounded integers, with no
  2^53 limit.
- The product detail page's fields (`product`, `orders`) are parameters of its functions;
  loading them through `getById`/`getByProductId` is left to the store model.
- OrderTrackerComponent.GetTotalInflow: its own contract gives only the empty and the
  zero cases; the sum itself is stated one order at a time by `InflowStep`.
- OrderTrackerComponent.GetTotalOutflow: likewise, the sum is stated by `OutflowStep`.
- ProductDetailComponent.GetTotalInflow: its own contract gives the empty case and the
  bounds; the sum itself is stated one order at a time by `DetailFlowStep`.
- ProductDetailComponent.GetTotalOutflow: likewise, the sum is stated by `DetailFlowStep`.
- OrderTrackerComponent.GetPendingCount: its own contract gives the empty case and the
  bounds; the count itself is stated one order at a time by `PendingCountStep`.
- DashboardComponent.CompletedOrdersCount: its own contract gives the empty case and the
  bounds; the count itself is stated one order at a time by `CompletedCountStep`.
- Text.NumberText: JavaScript writes numbers of magnitude 1e21 or more in exponent
  notation; the model writes every integer in plain decimal.
- DashboardComponent.SortByDateDesc: the definition is stable, like
  `Array.prototype.sort`. Stability is stated only as `SortSortedIsIdentity`, not as
  "equal dates keep their relative order" for every input.
- The order tracker's `deleteOrder`, and the list components' delete flows: they use a
  `confirm()` dialog and reload on success, which is UI behaviour.
- Forms, the reorder-level directive, routes and app configuration: their logic is Angular
  form state, DOM styling and configuration tables.
- `ngOnInit`, `paramMap`, `parseInt` of route ids, and console logging: framework
  lifecycle and I/O.

## Findings

| source | as written | input that shows it | evidently intended | confidence | as-written member | corrected member |
|---|---|---|---|---|---|---|
| src/services/product.service.ts:138-144 | the low-stock filter runs inside `tap`, whose result is discarded, so the unfiltered snapshot is emitted | all requests failing: the seed's laptop (15 in stock, reorder at 5) is emitted | emit only products with `quantity <= reorderLevel`, as the pipe and the dashboard compute | high, not executed | ProductService.LowStockQueryEmitsHealthyProduct | Queries.LowStockOf |
| src/services/order.service.ts:144-148 | `getOrdersByType` filters inside `tap`, so every order is emitted | all requests failing, type OUT: seed order 1 (IN) is emitted | emit only orders of the requested type | high, not executed | OrderService.OrderQueriesEmitUnfiltered | Queries.OrdersOfType |
| src/services/order.service.ts:150-154 | `getPendingOrders` filters inside `tap`, so every order is emitted | all requests failing: seed order 1 (COMPLETED) is emitted | emit only PENDING orders | high, not executed | OrderService.OrderQueriesEmitUnfiltered | Queries.OrdersWithStatus |
