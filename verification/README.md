# PotionShop inventory core in Dafny

This project models the inventory state machine of a simulated potion
shop. The shop's endpoints read and update two stores that the code is
migrating between. The model keeps both as the code has them.

- **The inventory row** (`InventoryStore.GlobalInventory`). This is the single `global_inventory` row,
  updated in place. It holds gold, four millilitre counters, the green potion count, and the
  potion and ml capacity units. Beside it are the quantities of the `potion_inventory` table,
  which the audit and the capacity planner sum. The audit, the capacity planner and the
  capacity, bottle and barrel deliveries work on it. Its abstract value is
  `InventoryStore.Snapshot`.
- **The ledger** (`LedgerStore.Ledger`). These are the append-only tables: gold, potion,
  ml and capacity records. It also holds the carts and their items, and the read-only
  `potion_index` price list. Carts and reset work on it. Its abstract value is
  `LedgerStore.LedgerState`.

Every endpoint is one atomic transition. An endpoint that writes is a method on the store
it writes, with `modifies`. Its `ensures` ties the new abstract value to a pure function of
the old one. The lemmas are stated about those functions. Planners and the audit are
functions of a snapshot. The capacity planner is also a method, because the endpoint builds
its plan and a gold balance step by step. The barrel delivery's totals are a method with a
loop, because the endpoint accumulates them in one.

Some behaviours of the code are modelled exactly as written:

- The audit counts potions in `potion_inventory`. Bottling adds to `num_green_potions`
  instead, so a bottling delivery never changes the audited potion count
  (`Bottler.AuditAfterBottleDelivery`).
- A barrel delivery adds every barrel's millilitres to green, whatever its `potion_type`.
  It charges only the last line's price (see Findings).
- A bottle delivery takes only `potion_type[1]` (the green component) from the green
  millilitres. A batch whose `potion_type` has fewer than two entries fails the endpoint
  before it writes anything. This is modelled as a rejected delivery that changes nothing.
- `int(ml / 100)` rounds toward zero, so negative millilitres plan nothing.
- SQL `SUM` over no rows is NULL. In checkout both returned totals are therefore options, and
  so is the inserted `change_in_gold`. `COALESCE(SUM(...), 0)` sums are plain integers that
  are 0 over no rows.
- Reset's description says carts are reset, but the code clears only the gold, capacity,
  potion and ml records. The model follows the code (`Admin.CheckoutAfterReset`).
- Reset does not touch the `global_inventory` row. "Gold goes to 100" therefore holds of
  the ledger gold (`Admin.ResetLedgerTotals`), never of the gold the audit reports.
- The checkout endpoint never completes as written (see Findings). Its log line reads the
  local name `checkout` before it is assigned, and its first query uses a parameter that is
  never supplied. `Carts.Checkout` models this failing endpoint, which writes nothing.
  `Carts.ApplyCheckout` and `Carts.CheckoutCorrected` model the checkout the code evidently
  intends.
- The code keeps running totals in the `global_inventory` row, validates no delivery, and
  plans green potions and green barrels only. The model follows the code.

## Model

| member | source | states |
|---|---|---|
| `InventoryStore.SumNonNegative` | src/api/inventory.py:26-27 | a `COALESCE(SUM(quantity), 0)` over non-negative quantities is non-negative; the audit's potion count rests on it |
| `Inventory.Audit` | src/api/inventory.py:24-38 | gold is reported unchanged, ml is the sum of the four colour counters, and the potion count is the `potion_inventory` sum: 0 when the table is empty, and never negative when no quantity is |
| `Inventory.CapacityPlanOf` | src/api/inventory.py:50-72 | each field is 0 or 1; gold below 1000 plans nothing; a potion unit is planned iff gold ≥ 1000 and free slots < capacity·10; an ml unit iff the gold left after the potion unit is ≥ 1000 and free ml < capacity·1000; a non-empty plan costs at most the gold |
| `Inventory.GetCapacityPlan` | src/api/inventory.py:50-74 | the step-by-step planner (local plan and gold balance) returns exactly the plan above |
| `Inventory.ApplyCapacityDelivery` | src/api/inventory.py:94-97 | potion capacity grows by n and ml capacity by m, gold falls by 1000·(n+m), and every other field is unchanged |
| `Inventory.DeliverCapacityPlan` | src/api/inventory.py:84-105 | the in-place row update leaves the row as `ApplyCapacityDelivery` says |
| `Inventory.DeliveredPlanIsAffordable` | src/api/inventory.py:67-72 | delivering the proposed plan never drives non-negative gold negative and never lowers a capacity |
| `Inventory.AuditAfterCapacityDelivery` | src/api/inventory.py:94-97 | after a capacity delivery the audit differs only in gold, by the units' price |
| `Bottler.MixablePotions` | src/api/bottler.py:58 | truncating division by 100: for non-negative ml it gives q with 100q ≤ ml < 100(q+1); it is positive iff ml ≥ 100 |
| `Bottler.BottlePlan` | src/api/bottler.py:53-66 | at most one batch; empty iff green ml < 100; the batch is `[0,100,0,0]` with quantity ml div 100, and its 100·quantity never exceeds the green ml |
| `Bottler.ApplyBottleDelivery` | src/api/bottler.py:25-36 | rejected iff a batch lacks `potion_type[1]`; otherwise green potions grow by the sum of quantities, green ml falls by the sum of `potion_type[1]`·quantity, and nothing else changes |
| `Bottler.PostDeliverBottles` | src/api/bottler.py:23-39 | the endpoint writes that new row when every batch has a green component, and otherwise changes nothing |
| `Bottler.GreenBatchesUse100Each` | src/api/bottler.py:26-28 | batches of the all-green type use exactly 100 ml per potion |
| `Bottler.TotalGreenMl` | src/api/bottler.py:26-28 | batches with no green component use no green ml |
| `Bottler.TotalBottlesSplits` | src/api/bottler.py:25 | the bottles of a delivery split in two add up to those of the whole |
| `Bottler.TotalGreenMlSplits` | src/api/bottler.py:26-28 | when both parts name a green component, so does the whole, and the green ml of the parts add up to those of the whole |
| `Bottler.BottleDeliveriesCompose` | src/api/bottler.py:25-36 | a delivery of a + b is rejected exactly when a delivery of a is, or b lacks a green component; otherwise delivering a then b leaves the row that delivering a + b leaves |
| `Bottler.NonGreenBatchesUseNoMl` | src/api/bottler.py:25-34 | for every row and every delivery whose batches all have green component 0, the delivery adds the bottles to green potions and changes nothing else, green ml included |
| `Bottler.PlanThenDeliver` | src/api/bottler.py:57-65 | delivering the plan made at green ml M leaves M mod 100 ml and adds M div 100 green potions |
| `Bottler.AuditAfterBottleDelivery` | src/api/bottler.py:32-34 | a bottle delivery lowers the audited ml by the green ml used and leaves the audited potion count and gold unchanged |
| `Barrels.DeliveryTotals` | src/api/barrels.py:27-31 | the loop returns the ml of every line and the price·quantity of the last line only (0 for none) |
| `Barrels.ApplyBarrelDelivery` | src/api/barrels.py:36-38 | green ml grows by all delivered ml regardless of colour, gold falls by the last line's cost, nothing else changes, and an empty delivery changes nothing |
| `Barrels.PostDeliverBarrels` | src/api/barrels.py:25-42 | the loop followed by the in-place update leaves the row as `ApplyBarrelDelivery` says |
| `Barrels.WholesalePurchasePlan` | src/api/barrels.py:47-62 | exactly one `SMALL_GREEN_BARREL` of quantity 1 when green potions < 10, otherwise empty |
| `Barrels.PlanIgnoresCatalogAndGold` | src/api/barrels.py:47-62 | with no gold and a catalog that offers no small green barrel (or no catalog at all), a shop below 10 green potions still orders one small green barrel |
| `Barrels.LastLineCost` | src/api/barrels.py:27-31 | with non-negative prices and quantities the written charge is between 0 and the sum of every line's price·quantity |
| `Barrels.DeliveredCost` | src/api/barrels.py:27-31 | the corrected charge of non-negative lines is non-negative, which bounds the written charge from above (`LastLineCost`) |
| `Barrels.DeliveredMlSplits` | src/api/barrels.py:29-30 | the ml of a delivery split in two add up to those of the whole |
| `Barrels.AuditAfterBarrelDelivery` | src/api/barrels.py:36-38 | after a barrel delivery the audit shows the delivered ml added and the charged gold deducted |
| `Barrels.WrittenDeliveryDependsOnSplit` | src/api/barrels.py:31 | as written, two small green barrels cost 100 gold delivered together and 200 delivered apart |
| `Barrels.ApplyChargedBarrelDelivery` | src/api/barrels.py:27-38 | the corrected delivery charges price·quantity summed over every line |
| `Barrels.DeliveredCostSplits` | src/api/barrels.py:28-31 | the corrected cost of a delivery split in two adds up to that of the whole |
| `Barrels.IntendedDeliverySplits` | src/api/barrels.py:27-38 | two corrected deliveries in a row equal one delivery of both |
| `Barrels.SingleLineChargesAgree` | src/api/barrels.py:28-31 | on a one-line delivery the written and the corrected charge agree |
| `Carts.AddCart` | src/api/carts.py:98-111 | a new cart row with the next id and the customer's name, class and level is appended, and the id counter advances |
| `Carts.AddCartKeepsWellFormed` | src/api/carts.py:101-103 | the new id differs from every existing cart's id, and the ledger stays well formed |
| `Carts.CreateCart` | src/api/carts.py:95-113 | the endpoint returns the new cart's id and stores the customer |
| `Carts.Upsert` | src/api/carts.py:128-133 | the result holds the row (cart, sku, q) and has at most one row more than before |
| `Carts.UpsertSetsQuantity` | src/api/carts.py:128-133 | after setting (cart, sku) to q, that key holds q |
| `Carts.UpsertKeepsOthers` | src/api/carts.py:128-133 | every other (cart, sku) key keeps its quantity, or stays absent |
| `Carts.UpsertInsertsOrOverwrites` | src/api/carts.py:128-133 | an absent key is inserted as a new row; a present one is overwritten without adding a row |
| `Carts.UpsertIdempotent` | src/api/carts.py:128-133 | repeating the same call changes nothing |
| `Carts.UpsertKeepsKeysUnique` | src/api/carts.py:130 | the upsert never creates a second row for a key |
| `Carts.UpsertKeepsOtherCarts` | src/api/carts.py:128-135 | setting an item in one cart leaves every other cart's lines as they were |
| `Carts.SetItemQuantity` | src/api/carts.py:121-137 | the endpoint replaces the cart items by the upserted ones, and nothing else changes |
| `Carts.CartLines` | src/api/carts.py:155-157 | a cart's lines are exactly the items that carry its id |
| `Carts.SaleRecords` | src/api/carts.py:155-157 | one potion record per cart line, with the line's sku and qty_change = −quantity |
| `Carts.QuantitySum` | src/api/carts.py:167-175 | the potions bought are NULL exactly for a cart without lines |
| `Carts.KnownLines` | src/api/carts.py:159-161 | the joined rows are exactly the cart lines whose sku has a price |
| `Carts.Revenue` | src/api/carts.py:159-161 | lines whose skus have no price earn 0; non-negative prices and quantities earn non-negative gold |
| `Carts.GoldPaid` | src/api/carts.py:158-162 | the inserted gold is NULL exactly when no line's sku has a price |
| `Carts.RevenueCountsKnownLinesOnly` | src/api/carts.py:158-161 | the gold earned is that of the priced lines alone; unknown skus add nothing |
| `Carts.SaleRecordsBalance` | src/api/carts.py:155-157 | the sale records take out of stock exactly the cart's total quantity |
| `Carts.ApplyCheckout` | src/api/carts.py:151-166 | the intended (corrected) checkout appends the sale records and one gold record, and removes and changes nothing else |
| `Carts.ReceiptOf` | src/api/carts.py:167-179 | the potions bought are the cart's quantity sum, and the gold paid is the gold record just inserted |
| `Carts.CheckoutOutcome` | src/api/carts.py:145-180 | the endpoint fails with an unbound `checkout` when the log line reads it, otherwise fails naming the unsupplied parameters, and otherwise completes with `ApplyCheckout` and `ReceiptOf` |
| `Carts.Checkout` | src/api/carts.py:145-150 | as written, the endpoint always fails on the unbound local `checkout`, which is the failure `CheckoutOutcome` gives for the log line and the supplied parameters, whatever the ledger and cart; it writes nothing |
| `Carts.UnboundIdAbortsCheckout` | src/api/carts.py:157-165 | even past the log line, the query fails because `:id` is not among the supplied parameters |
| `Carts.CheckoutCorrected` | src/api/carts.py:151-180 | the corrected endpoint leaves the ledger as `ApplyCheckout` says and returns `ReceiptOf` |
| `Carts.CorrectedCheckoutBooksSale` | src/api/carts.py:151-180 | with the log line fixed and both parameters bound, checkout completes, takes the reported potions out of stock and adds the reported gold |
| `Carts.CheckoutMatchesReceipt` | src/api/carts.py:152-179 | in the corrected checkout the potion stock falls by the potions reported bought, and the ledger gold rises by the gold reported paid |
| `Carts.CheckoutRepeats` | src/api/carts.py:151-175 | the corrected checkout does not remove cart items, so a second checkout appends the same records again |
| `LedgerStore.StockChangeSplits` | src/api/carts.py:155-157 | the stock change of two record sequences appended is the sum of their stock changes |
| `Admin.ResetOf` | src/api/admin.py:24-29 | the gold and capacity records are one default row each, the potion and ml records are empty, and carts, cart items and prices are untouched |
| `Admin.Reset` | src/api/admin.py:15-34 | the endpoint leaves the ledger as `ResetOf` says and keeps it well formed |
| `Admin.ResetIdempotent` | src/api/admin.py:24-29 | resetting twice equals resetting once |
| `Admin.ResetLedgerTotals` | src/api/admin.py:17-28 | after a reset the ledger holds 100 gold and no potion stock |
| `Admin.CheckoutAfterReset` | src/api/admin.py:18-29 | carts survive a reset: checking a cart out afterwards books the same sale into the emptied ledger |

## Left out

- HTTP routing, API-key authentication, Pydantic validation beyond field shapes, and logging
  are not modelled. The one exception is checkout's log line, which fails the endpoint
  (`Carts.Checkout`). The `payment` argument of checkout and the `order_id` of deliveries are
  only logged by the code.
- Database transactions and concurrency are not modelled. Each endpoint is one atomic
  transition on one store.
- Database schema details are not visible and are not modelled: column types and their
  integer widths, NOT NULL and foreign-key constraints, and column defaults. Integers are
  unbounded. A cart item may name a cart that does not exist. A NULL `change_in_gold` is
  stored as `None`. The default gold record is taken to be 100 gold, as reset's description
  says. The default capacity record is taken to grant no units. The cart id sequence is a
  counter (`nextCartId`).
- The order of rows a `SELECT` returns is taken to be table order.
- `Bottler.MixablePotions`: Python's float division loses precision for very large
  millilitre counts. The model divides exactly.
- `search_orders` (a fixed stub), `post_visits` (logging only) and `src/api/catalog.py`
  (a fixed catalog entry) are not part of this model.
- Reset is the only endpoint in these files that writes `ml_records` or `capacity_records`.
  It deletes both, and re-seeds `capacity_records` with one default row. No endpoint reads
  any ledger total. The ledger totals `LedgerGold` and `StockChange` exist only to state what
  checkout and reset do.
- `potion_index` is modelled as a map, so each sku has exactly one price. The table itself
  is not visible. If it held two rows for one sku, the join at src/api/carts.py:159-161 would
  count that cart line once per row. The model does not capture this.
- The greedy multi-colour barrel and bottling planners, colour need-ranking and favourability
  ordering are not in this code, so they are not modelled.

## Findings

| source | as written | input that shows it | evidently intended | confidence | as-written member | corrected member |
|---|---|---|---|---|---|---|
| src/api/carts.py:147-150 | the log line passes the name `checkout`, which the function assigns only at line 176, so Python raises `UnboundLocalError` before any query | any call, e.g. cart 1 with payment "cash" | log the cart and payment only (or the receipt after it is built) | high; not executed | `Carts.Checkout` | `Carts.CorrectedCheckoutBooksSale` |
| src/api/carts.py:157 | the potion-record insert filters on `:id`, but only `cart_id` is bound at line 165, so the statement fails for a missing parameter | any cart id, once the log line is fixed | filter on `:cart_id` as the gold insert does | high; not executed | `Carts.UnboundIdAbortsCheckout` | `Carts.CorrectedCheckoutBooksSale` |
| src/api/barrels.py:31 | each line's `price * quantity` replaces the running total, so only the last line is charged | two `SMALL_GREEN_BARREL` lines at price 100, quantity 1, delivered together: 100 gold charged instead of 200 | accumulate the price as the millilitres are accumulated | high; not executed | `Barrels.WrittenDeliveryDependsOnSplit` | `Barrels.IntendedDeliverySplits` |

The endpoint model `Barrels.PostDeliverBarrels` keeps the written charge so that it matches
the code. `Barrels.ApplyChargedBarrelDelivery` is the corrected transition.

`Carts.Checkout` is the checkout endpoint as written: it fails and leaves the ledger as it
was. `Carts.CheckoutCorrected`, `Carts.ApplyCheckout` and `Carts.ReceiptOf` are the corrected
checkout. `Admin.CheckoutAfterReset` and the checkout lemmas are stated about that corrected
checkout.
