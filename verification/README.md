# Stock ledger of the material-accounting dashboard, in Dafny

The dashboard keeps track of materials (stock items with a quantity, a
minimum quantity and a unit price), purchase orders against them, and stock
movements (receipts and write-offs). All state lives in memory inside four
page components that share nothing; each is modelled as its own module:

- `Ledger` (`ledger.dfy`) — the main page, `src/pages/Index.tsx`. The class
  `Dashboard` holds the three lists `materials`, `orders` and `transactions`
  as `seq` fields; its four handlers replace them as the page's `setX` calls
  do. A transaction adds to or subtracts from the quantity of the material
  with the selected id, floored at 0, and prepends a record carrying a snapshot
  of the material's name. An order is appended as `pending` with amount = unit
  price × quantity and does not touch stock. The invariant kept by every
  handler is that no quantity is negative. Pure functions give the low-stock
  list and count, the pending-order count and the reorder suggestion
  `minQuantity − quantity + 100`.
- `Catalogue` (`catalogue.dfy`) — the materials page, `src/pages/Materials.tsx`:
  add (every field but the description must be non-empty text) and delete over
  its own list, and the stock badge `getStockStatus`, modelled with the exact
  percentage `stock / minStock * 100` and proved equal to integer tests.
- `OrderBook` (`order_book.dfy`) — the orders page, `src/pages/Orders.tsx`:
  order creation validated for non-empty fields and looked up by name in the
  page's fixed price list, the four status labels and colours, and the split
  into manual and automatic orders.
- `History` (`history.dfy`) — the read-only transaction page,
  `src/pages/Transactions.tsx`: a case-insensitive name search combined with a
  kind selector, the per-kind quantity totals, and the kind badges.
- `ArrayOps` (`array_ops.dfy`) — the JavaScript array operations the pages use
  (`filter`, `find`, and the delete-by-id filter both material lists use),
  with contracts that pin `filter` down (an order-preserving subsequence
  keeping every copy of each passing element and nothing else).

Handlers that show an error toast return `Invalid`. A handler that returns
silently because the selected material is gone returns `NotFound`. A
successful handler returns `Done` (in `Catalogue`, `added`). Form fields the
handlers read from component state are method parameters. Numbers the pages
parse from text are passed in already parsed. The clock reading is a `now`
parameter.

Quirks of the code that the model keeps:
- `handleAddMaterial` on the main page rejects only an empty name or a
  negative quantity. A negative minimum or price is accepted.
- Material ids are `length + 1`, not unique ids. After a deletion the next
  material can reuse an id still in the list (`Ledger.IdsCanRepeatAfterDelete`).
  Deleting or posting against that id then affects both entries.
- The main page's orders have three statuses (no `processing`).
- The orders page accepts a zero or negative parsed quantity
  (`OrderBook.ZeroQuantityScenario`). The main page rejects quantity ≤ 0.

## Model

| member | source | states |
|---|---|---|
| `ArrayOps.Filter` | src/pages/Index.tsx:71 | `filter` returns an order-preserving subsequence whose elements all pass and which holds every passing element; it is the whole list when all pass and empty when none does |
| `ArrayOps.FilterExact` | src/pages/Index.tsx:71 | `filter` keeps every copy of a passing element and no copy of a failing one (exact multiplicities) |
| `ArrayOps.FilterCountsPositions` | src/pages/Index.tsx:71-72 | `filter(p).length` is the number of positions whose element passes `p` |
| `ArrayOps.Find` | src/pages/Index.tsx:99 | `find` returns nothing exactly when no element passes, otherwise the first passing element |
| `ArrayOps.FilterAppend` | src/pages/Orders.tsx:94-95 | filtering a list with one element appended gives the old result plus that element exactly when it passes |
| `ArrayOps.FilterPartition` | src/pages/Orders.tsx:94-95 | two complementary filters split a list: lengths add up and the multisets add up to the list's |
| `ArrayOps.FilterCountMonotone` | src/pages/Index.tsx:71 | if every element passing at a position in one list also passes at that position in another, the first has no more passing elements |
| `ArrayOps.SubsequenceFilterCount` | src/pages/Index.tsx:71 | a subsequence has no more passing elements than the whole list |
| `ArrayOps.WithoutKey` | src/pages/Index.tsx:90 | deleting by id (also src/pages/Materials.tsx:61) keeps the other entries in order, removes every entry with the id, and is a no-op for an absent id |
| `ArrayOps.WithoutKeyExact` | src/pages/Materials.tsx:61 | deleting by id keeps every copy of an entry with another id and drops every copy of an entry with that id |
| `Ledger.Adjusted` | src/pages/Index.tsx:138-141 | the new quantity is never negative; a receipt adds (or gives 0 when the sum is not positive), a write-off within stock subtracts, a write-off of at least the stock gives exactly 0 |
| `Ledger.ReceiptThenWriteOff` | src/pages/Index.tsx:138-141 | a receipt of n then a write-off of n restores a non-negative quantity |
| `Ledger.Restock` | src/pages/Index.tsx:136-144 | the mapped list has the same length and order; materials with the id get the adjusted quantity and nothing else changes; every other material is unchanged |
| `Ledger.RestockKeepsNonNegative` | src/pages/Index.tsx:141 | applying a transaction keeps every quantity ≥ 0 |
| `Ledger.RestockRoundTrip` | src/pages/Index.tsx:136-144 | receipt then write-off of the same amount on the same id returns the whole material list unchanged |
| `Ledger.Lookup` | src/pages/Index.tsx:122 | the lookup by id finds nothing exactly when no material has the id, otherwise the first material with it |
| `Ledger.DeleteKeepsNonNegative` | src/pages/Index.tsx:90 | deletion keeps the non-negative-quantity invariant |
| `Ledger.LowStock` | src/pages/Index.tsx:454-455 | the reorder card lists, in order, exactly the materials with quantity < minQuantity, each as many times as it occurs in the list |
| `Ledger.LowStockCount` | src/pages/Index.tsx:71 | the count is the number of positions holding a material with quantity < minQuantity; hence at most the number of materials, and 0 exactly when none is below its minimum |
| `Ledger.PendingCount` | src/pages/Index.tsx:72 | the count is the number of positions holding a pending order; hence at most the number of orders, and 0 exactly when none is pending |
| `Ledger.Suggestion` | src/pages/Index.tsx:468 | the suggestion for a low-stock material is over 100 and brings the quantity to minQuantity + 100 |
| `Ledger.ReorderSuggestions` | src/pages/Index.tsx:454-471 | entry i is the i-th low-stock material with the quantity that brings it to minQuantity + 100 (over 100); as many entries as `lowStockCount` |
| `Ledger.SuggestionClearsLowStock` | src/pages/Index.tsx:468 | receiving the suggested quantity makes a low-stock material no longer low |
| `Ledger.ReceiptKeepsHigh` | src/pages/Index.tsx:136-141 | a material that is low after a receipt was low before it, at the same position |
| `Ledger.WriteOffKeepsLow` | src/pages/Index.tsx:136-141 | on non-negative quantities a material low before a write-off stays low, at the same position |
| `Ledger.LowStockAfterReceipt` | src/pages/Index.tsx:136-141 | a receipt never raises `lowStockCount` |
| `Ledger.LowStockAfterWriteOff` | src/pages/Index.tsx:136-141 | a write-off never lowers `lowStockCount` when quantities are non-negative |
| `Ledger.LowStockAfterDelete` | src/pages/Index.tsx:89-90 | deleting a material never raises `lowStockCount` |
| `Ledger.PendingAfterAppend` | src/pages/Index.tsx:110-112 | appending a pending order raises `pendingOrders` by one |
| `Ledger.OrderAmount` | src/pages/Index.tsx:109 | for a positive quantity the amount is non-negative exactly when the unit price is (the page accepts a negative price); a zero quantity costs nothing |
| `Ledger.Dashboard.constructor` | src/pages/Index.tsx:44-64 | the page starts from the given lists, with no negative quantity |
| `Ledger.Dashboard.AddMaterial` | src/pages/Index.tsx:75-87 | rejected (state unchanged) iff the name is empty or the quantity negative; otherwise exactly one material appended with id = old length + 1; orders and transactions untouched; invariant kept |
| `Ledger.Dashboard.DeleteMaterial` | src/pages/Index.tsx:89-92 | materials become the list without the id; orders and transactions untouched; invariant kept |
| `Ledger.Dashboard.AddOrder` | src/pages/Index.tsx:94-115 | invalid iff id is 0 or quantity ≤ 0, not found iff no material has the id; on success one pending, manual order appended with id = old length + 1, the name snapshot and amount = price × quantity; materials and transactions never change; orders unchanged on failure |
| `Ledger.Dashboard.AddTransaction` | src/pages/Index.tsx:117-148 | invalid iff id is 0 or quantity ≤ 0, not found iff no material has the id; on success one record prepended with id = old length + 1, the kind, quantity and name snapshot, and materials become `Restock`; orders never change; nothing changes on failure; invariant kept |
| `Ledger.IdsCanRepeatAfterDelete` | src/pages/Index.tsx:80-90 | on a page holding materials 1 and 2, `handleDeleteMaterial(1)` then `handleAddMaterial` leaves two materials with id 2 |
| `Ledger.ReceiptWriteOffScenario` | src/pages/Index.tsx:117-148 | posting a receipt and then a write-off of the same amount leaves the materials as they were |
| `Catalogue.PercentageBelow` | src/pages/Materials.tsx:66-68 | for minStock > 0, `stock / minStock * 100 < b` iff `100 * stock < b * minStock` |
| `Catalogue.GetStockStatus` | src/pages/Materials.tsx:65-70 | for minStock > 0 exactly one badge: `Критично` iff 2·stock < minStock, `Низкий` iff minStock ≤ 2·stock and stock < minStock, `Норма` iff stock ≥ minStock |
| `Catalogue.StatusMonotone` | src/pages/Materials.tsx:66-69 | raising stock at a fixed minimum never makes the badge more alarming |
| `Catalogue.StatusFlagsLowStock` | src/pages/Materials.tsx:66-69 | the badge is not `Норма` exactly when stock < minStock, the main page's low-stock test |
| `Catalogue.MaterialsPage.constructor` | src/pages/Materials.tsx:22-28 | the page starts from the given list |
| `Catalogue.MaterialsPage.AddMaterial` | src/pages/Materials.tsx:39-58 | accepted iff name, amount, stock and minStock text are all non-empty (description optional); then exactly one entry appended with id = old length + 1 and the earlier entries kept; otherwise nothing changes |
| `Catalogue.MaterialsPage.DeleteMaterial` | src/pages/Materials.tsx:60-63 | the list becomes the list without the id |
| `OrderBook.LookupByName` | src/pages/Orders.tsx:53 | the lookup by name finds nothing exactly when no price-list entry has the name, otherwise the first entry with it |
| `OrderBook.OrderAmount` | src/pages/Orders.tsx:62 | with a positive price the amount is positive exactly when the quantity is and zero exactly when the quantity is |
| `OrderBook.StatusLabel` | src/pages/Orders.tsx:74-82 | each status's label, and each label names exactly one status |
| `OrderBook.StatusColor` | src/pages/Orders.tsx:84-92 | each status's colour, and each colour belongs to exactly one status |
| `OrderBook.StatusBadgesDistinct` | src/pages/Orders.tsx:74-92 | the four statuses get four different labels and four different colours |
| `OrderBook.ManualOrders` | src/pages/Orders.tsx:94 | the manual tab is an order-preserving subsequence holding exactly the non-automatic orders |
| `OrderBook.AutoOrders` | src/pages/Orders.tsx:95 | the automatic tab is an order-preserving subsequence holding exactly the automatic orders |
| `OrderBook.ManualAutoPartition` | src/pages/Orders.tsx:94-95 | the two tabs partition the orders: lengths and multisets add up, and each order is in exactly one tab |
| `OrderBook.NewOrderIsManual` | src/pages/Orders.tsx:65-68 | an appended non-automatic order lands last in the manual tab and leaves the automatic tab unchanged |
| `OrderBook.OrdersPage.constructor` | src/pages/Orders.tsx:26-45 | the page starts from the given orders; its price list is the hard-coded one |
| `OrderBook.OrdersPage.AddOrder` | src/pages/Orders.tsx:47-72 | invalid iff any of name, quantity or customer text is empty; not found iff the name is not in the price list; on success one order appended with id = old length + 1, status pending, not automatic, the price-list id and name, and amount = price × quantity; otherwise orders unchanged |
| `OrderBook.ZeroQuantityScenario` | src/pages/Orders.tsx:48-62 | a complete form with quantity 0 is accepted and its order lands in the manual tab |
| `History.Lower` | src/pages/Transactions.tsx:33 | lower-casing keeps the length |
| `History.Contains` | src/pages/Transactions.tsx:33 | `includes` holds exactly when the query occurs at some position of the name |
| `History.ContainsEmpty` | src/pages/Transactions.tsx:33 | the empty query occurs in every name |
| `History.FilteredTransactions` | src/pages/Transactions.tsx:32-36 | an order-preserving subsequence keeping a transaction iff its lower-cased name contains the lower-cased query and the selector is `all` or its kind, every copy of a kept transaction and none of a dropped one |
| `History.EmptySearchShowsAll` | src/pages/Transactions.tsx:32-36 | an empty query with `all` returns the whole list |
| `History.KindSelectsFromAll` | src/pages/Transactions.tsx:34 | selecting one kind gives the rows of that kind from the `all` result, in order |
| `History.KindResultsPartitionAll` | src/pages/Transactions.tsx:34 | for one query the incoming and outgoing results are disjoint and together make up the `all` result (lengths and multisets) |
| `History.SumQuantities` | src/pages/Transactions.tsx:50-51 | the `reduce` sum of non-negative quantities is non-negative |
| `History.TotalIncoming` | src/pages/Transactions.tsx:50 | 0 when there is no receipt; never negative when no quantity is |
| `History.TotalOutgoing` | src/pages/Transactions.tsx:51 | 0 when there is no write-off; never negative when no quantity is |
| `History.TotalsAddUp` | src/pages/Transactions.tsx:50-51 | `totalIncoming + totalOutgoing` is the sum of all quantities |
| `History.TypeLabel` | src/pages/Transactions.tsx:38-40 | each kind's label, and each label names exactly one kind |
| `History.TypeIcon` | src/pages/Transactions.tsx:42-44 | each kind's icon, and each icon belongs to exactly one kind |
| `History.TypeColor` | src/pages/Transactions.tsx:46-48 | each kind's colour, and each colour belongs to exactly one kind |
| `History.TypeBadgesDistinct` | src/pages/Transactions.tsx:38-48 | the two kinds get different labels, icons and colours |

## Left out

- `src/components/Layout.tsx` (sidebar state and link highlighting) is not part of this model.
- Rendering, dialogs, `Select`/`Input` widgets and toasts. A toast's kind is the handler's returned outcome.
- Resetting the form state after a successful handler (`setNewMaterial`, `setNewOrder`, `setNewTransaction`). The form fields are method parameters, so there is no form state to reset.
- Hard-coded seed lists. Each page's constructor takes its initial lists. The orders page's fixed price list is not seed data: it is kept as `OrderBook.PriceList`, and `OrdersPage.catalogue` is that list.
- Parsing: `parseInt`/`parseFloat` and the `|| 0` fallback of the main page's inputs. Parsed values are integer (or `real` price) parameters, and `NaN` is not modelled. On the main page `!material_id` is modelled as `material_id == 0`.
- Floating point: prices and amounts are exact `real`s. Rounding in `price × quantity` is not modelled. Neither are `totalValue` (src/pages/Index.tsx:73) and the order-total preview with `toFixed` (src/pages/Orders.tsx:156).
- Clock reads (`new Date()`, `toISOString`) and date formatting: the timestamp is a parameter stored as is.
- History.Lower: lower-cases only the Latin and Cyrillic capital letters (A–Z, А–Я, Ѐ–Џ), not full Unicode/locale case mapping.
- Catalogue.GetStockStatus: requires minStock > 0. The page accepts any parsed minimum (src/pages/Materials.tsx:51) and renders its badge (src/pages/Materials.tsx:156). A zero minimum divides by zero (Infinity/NaN, then `Норма` or `Критично`); a negative minimum gives a percentage of the opposite sign (for positive stock, `Критично`). Neither case is modelled.
- The main page calls `setTransactions` and `setMaterials` separately in one handler. React applies both before the next render, and the model applies them in one method.
- There is no order-status transition and no auto-order scheduler in the code. Automatic orders exist only as seed data, so they appear only through the constructors' lists.
