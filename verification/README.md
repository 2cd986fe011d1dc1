# Checkout protocol: a verified model

A Dafny model of the marketplace's checkout, inventory and payment protocol, with proofs about every run of it.

Stock, reservations, orders, order items, charges, coupons, carts, quotes, webhook events, idempotency keys and the
status log are separate tables, changed by a few transactions of several statements each. No statement keeps the tables
consistent on its own, and the code ignores the row count of several guarded updates (commit and release of reserved
stock, release of a coupon use, the status change inside a webhook). The central result is one invariant between the
tables, `Invariants.Consistent`, which every step of every run keeps; from it follow that these guards never miss,
that stock is conserved, and that charges, holds, coupon counters, amounts and the audit log always agree with the
orders.

## How the model is built

| file | content |
|---|---|
| `Prelude.dfy`, `Text.dfy` | sums over rows, the library sort, decimal printing |
| `Schema.dfy` | the tables and the single SQL statements as functions |
| `StockLoops.dfy` | the stock loops, the aggregate question each decides, row versions |
| `Protocol.dfy` | each transaction as a function from tables to tables or an error |
| `Database.dfy` | the class `Db` with one field per table; statements, loops, rollback and savepoint as methods, each proved equal to the function of `Protocol` |
| `Money.dfy`, `Fingerprint.dfy`, `CheckoutService.dfy` | 64-bit arithmetic, the cart fingerprint, quote, coupon check, pre-check |
| `CartMerge.dfy` | merging an anonymous cart, quantities saturating at 99 |
| `Transactions.dfy` | the admin's write, the expiry of one order and the inventory repository's operations in closed form |
| `Ledger.dfy`, `Invariants.dfy`, `Preservation.dfy`, `Confirming.dfy` | the invariant and why each transaction keeps it |
| `Runs.dfy`, `RunTheorems.dfy`, `ExpirySweep.dfy` | runs as finite sequences of steps, and what holds over all of them |
| `PurchaseExample.dfy` | one shopper followed from empty tables to an order |
| `ReservationRuns.dfy` | what reservation rows tell about orders, and how long a hold lasts |
| `CouponLimit.dfy` | what a coupon's usage limit does and does not limit |
| `StaleCart.dfy` | when a confirm orders the cart as it is, and a run in which it does not |

A run starts from empty tables and is any finite sequence of steps by any number of clients: quote, pre-check of a
confirm, the confirm transaction (other steps may come in between), webhook, expiry of one order, admin stock write, new
coupon, any legal change of the carts, and, where a theorem says so, the inventory repository's own reserve and resolve.

## Assumptions

- Every `Begin … Commit` is one atomic step. Row locks, isolation levels, deadlocks and connection errors are not modelled.
- SHA-256 is represented by its pre-image: two fingerprints or request hashes are equal when the hashed texts are.
- Time, fresh ids, prices, shipping options and addresses are parameters of the steps. Nothing is assumed of ids: an id
  that is taken makes the insert fail as the primary key or unique index would.
- The payment provider charges the requested amount under the charge id `mock_<order id>`.
- The order in which the library sort leaves lines of the same variant is that of an insertion sort; no result depends on it.

## Where code and documents differ

The model follows the code.

- The design document puts the idempotency check, the quote's expiry and the fingerprint comparison into the confirm
  transaction and promises that a changed cart always forces a new quote. The code does them before the transaction.
  `StaleCart.StaleCartExample` is a run from empty tables that ends in an order for less than the cart holds;
  `StaleCart.ConfirmsCartExactly` is the exact condition, for any tables before and after: the quote is still alive and
  the cart holds the same lines as at the pre-check. `StaleCart.QuietConfirmOrdersCart` turns it into a statement about
  runs: without a cart edit in between, the promise is kept whatever else happens.
- Subtotal, percentage and total are exact, and discount and total grow with the basket, only while they fit in 64 bits:
  `Money.SubtotalExact`, `Money.PercentExact`, `Money.TotalExact`, `Money.DiscountMonotone` and `Money.TotalMonotone`
  are the exact conditions, `Money.OverflowExamples` has failing inputs, and `PurchaseExample.OverflowReachesOrder`
  follows one of them into an order and its charge.
- The design document promises that no path can exceed a coupon's usage limit. An order that expires gives its use back,
  and when its payment arrives late it keeps the discount without taking the use again. The counter stays within the
  limit, the discounted orders need not: `CouponLimit.LimitExceeded` is a run from empty tables to two paid orders on a
  coupon for one. `CouponLimit.LimitExactly` is the exact condition over every run (no order with the code was paid
  after expiry, or, for the limit, counter and late paid orders together fit it); `CouponLimit.LatePaymentAdds` and
  `CouponLimit.ConfirmAddsDiscount` are the exact conditions step by step, and `CouponLimit.OnlyTheseAdd` says that no
  other step matters.
- The version is meant to guard the admin's stock write against lost updates, and does so for every row that was read.
  Without a row to read, the handler sends version 0, which also matches another admin's first write:
  `RunTheorems.NoLostUpdate` is the exact condition, `RunTheorems.FirstWriteLost` two writes that lose one.
- The transition table of the ordering module is consulted by no writer; that all writers respect it is a theorem.
- The document's `price_drift` flag does not exist in the code.

## Model

| member | source | states |
|---|---|---|
| Money.DiscountWithinSubtotal | internal/modules/checkout/domain/money.go:5-20 | no coupon takes more than the goods value or less than nothing, also after overflow; a negative goods value gets no discount |
| Money.PercentExact | internal/modules/checkout/domain/money.go:5-20 | a percentage discount is the half-up rounded percentage if and only if the product fits in 64 bits |
| Money.PercentNeverOverflows | internal/modules/checkout/domain/money.go:5-20 | up to 92233720368547757 cents every percentage is exact |
| Money.DiscountMonotone | internal/modules/checkout/domain/money.go:5-20 | up to any subtotal, larger baskets never get smaller discounts if and only if the percentage product of that subtotal fits in 64 bits; fixed discounts always grow |
| Money.DiscountGrowsSlowly | internal/modules/checkout/domain/money.go:5-20 | the discount never grows faster than the subtotal, overflow included |
| Money.TotalMonotone | internal/modules/checkout/domain/money.go:5-29 | up to any subtotal, larger baskets never have smaller totals if and only if the exact total of that subtotal fits in 64 bits |
| Money.TotalExact | internal/modules/checkout/domain/money.go:23-29 | the total is subtotal + shipping - discount if and only if that fits in 64 bits; the lower clamp never lifts it |
| Money.TotalClamps | internal/modules/checkout/domain/money.go:23-29 | within 64 bits the total is the exact amount, or nothing when that is negative |
| Money.DivisionTruncates | internal/modules/checkout/domain/money.go:11 | division by a hundred drops the fraction towards zero, also for negative amounts |
| Money.WrapKeepsLowBits | internal/modules/checkout/domain/money.go:11 | 64-bit arithmetic keeps the amount modulo 2^64 |
| Money.Int32KeepsLowBits | internal/modules/checkout/infrastructure/confirm_repo.go:83 | narrowing keeps the low 32 bits and leaves every 32-bit number alone |
| Money.SubtotalExact | internal/modules/checkout/application/checkout_service.go:109-122 | the accumulated subtotal is the exact goods value if and only if that value fits in 64 bits |
| Money.OverflowExamples | internal/modules/checkout/domain/money.go:5-29 | failing inputs for the subtotal, the percentage and the total |
| Money.FixedIsMinimum | internal/modules/checkout/domain/money.go:7-15 | a fixed discount is the lesser of coupon value and goods value |
| Fingerprint.Build | internal/modules/checkout/application/checkout_service.go:268-279 | filling, sorting and joining the entry array gives the pre-image |
| Fingerprint.FingerprintExact | internal/modules/checkout/application/checkout_service.go:268-279 | two carts have the same pre-image if and only if their lines are permutations of each other |
| Fingerprint.JoinedInjective | internal/modules/checkout/application/checkout_service.go:268-279 | the separator-free concatenation decodes in one way only |
| Text.DecimalInjective | internal/modules/checkout/application/checkout_service.go:271 | decimal printing is injective, signs included |
| Text.DigitsRead | internal/modules/checkout/application/checkout_service.go:271 | what is printed reads back as the number, without leading zeros |
| Text.AtMostMeans | internal/modules/checkout/application/checkout_service.go:273 | the sort order is that of dictionaries |
| Text.SortInPlace | internal/modules/checkout/application/checkout_service.go:273 | the in-place sort returns the ascending arrangement of the same entries |
| Text.SortedKeeps | internal/modules/inventory/infrastructure/repository.go:37-39 | sorting permutes the entries into ascending key order |
| CheckoutService.PickShipping | internal/modules/checkout/application/checkout_service.go:244-263 | the named service if offered, otherwise with no name the running minimum |
| CheckoutService.CheapestIsFirstMinimum | internal/modules/checkout/application/checkout_service.go:245-256 | without a named service the first of the cheapest options is chosen |
| CheckoutService.ValidateAgreesWithRedeem | internal/modules/checkout/application/coupon_service.go:22-40 | the quote accepts a coupon exactly when a redemption at that time would succeed and the minimum order is met; its discount stays within the subtotal |
| CheckoutService.QuoteCart | internal/modules/checkout/application/checkout_service.go:95-173 | prices the active cart and stores exactly the computed quote, or changes nothing |
| CheckoutService.ActiveLinesExact | internal/modules/checkout/application/checkout_service.go:96 | the lines read for a quote or a pre-check are exactly the rows of the user's active cart, none left out |
| CheckoutService.QuoteIsStored | internal/modules/checkout/application/checkout_service.go:103-156 | a quote holds one line for each row of the user's active cart, its subtotal is the wrapped value of these rows, and amounts and fingerprint are computed from its lines |
| CartMerge.QuotedQuantities | internal/modules/checkout/application/checkout_service.go:96-122 | per variant the quote has the quantity that is in the cart, and as many lines as the cart has rows |
| CheckoutService.QuoteDecides | internal/modules/checkout/application/checkout_service.go:95-159 | when a quote goes through, and the reason of each refusal, check by check |
| CheckoutService.QuotePriced | internal/modules/checkout/application/checkout_service.go:111-156 | unit prices are the catalog's, shipping is the named or a cheapest option's price, the discount is the coupon's own and redeemable then |
| CheckoutService.PreCheckProceeds | internal/modules/checkout/application/checkout_service.go:182-227 | a confirm goes on exactly when the key is new, the user's quote is alive and the rows of the cart are a permutation of the quoted lines; the plan has the client's own key, quote, order, pay method and hold time |
| CheckoutService.PreCheckDecides | internal/modules/checkout/application/checkout_service.go:182-227 | every outcome of the pre-check, read off the tables: replay, conflict, the three refusals, or the whole plan |
| CheckoutService.Confirm | internal/modules/checkout/application/checkout_service.go:182-233 | replay, refusal or transaction; on replay and on every failure no table changes |
| StaleCart.QuoteIsOrdered | internal/modules/checkout/infrastructure/confirm_repo.go:47-110 | the new order's items are exactly the quoted lines, whatever the cart holds by then |
| StaleCart.ConfirmsCartExactly | internal/modules/checkout/application/checkout_service.go:196-227 | the new order's items are a permutation of the cart at the transaction and the quote is alive, if and only if the quote has not run out and the cart holds the lines it held at the pre-check |
| StaleCart.QuietConfirmOrdersCart | internal/modules/checkout/application/checkout_service.go:196-227 | pre-check, any run without a cart edit, transaction before the quote runs out: a confirm that goes through orders exactly the cart |
| StaleCart.StaleCartExample | internal/modules/checkout/application/checkout_service.go:204-227 | a run from empty tables with a cart edit between pre-check and transaction: two pieces in the cart, a new pre-check refuses, one piece is ordered |
| Database.Db.ReserveStock | internal/platform/postgres/queries/inventory.sql.go:155-161 | guarded reservation of one row, reporting whether a row matched |
| Database.Db.CommitReservedStock | internal/platform/postgres/queries/inventory.sql.go:15-19 | guarded commit of one row, row count ignored |
| Database.Db.ReleaseReservedStock | internal/platform/postgres/queries/inventory.sql.go:138-143 | guarded release of one row, row count ignored |
| Database.Db.TransitionOrderStatus | internal/platform/postgres/queries/orders.sql.go:263-266 | guarded status change with its row count |
| Database.Db.InsertWebhookEvent | internal/platform/postgres/queries/charges.sql.go:114-117 | records the event id; zero rows when it was there |
| Database.Db.RedeemCoupon | internal/platform/postgres/queries/coupons.sql.go:75-81 | conditional increment of the use counter |
| Database.Db.ReleaseCoupon | internal/platform/postgres/queries/coupons.sql.go:101-104 | conditional decrement of the use counter |
| Database.Db.HoldLines | internal/modules/checkout/infrastructure/confirm_repo.go:80-97 | the reservation loop computes PlaceHolds, stopping at the first failure |
| Database.Db.CommitHeld | internal/modules/checkout/infrastructure/reconcile_repo.go:198-221 | commits every held row of the order and marks exactly these rows committed |
| Database.Db.ReleaseHeld | internal/modules/checkout/infrastructure/reconcile_repo.go:225-248 | releases every held row of the order and marks exactly these rows released |
| Database.Db.ReReserveSavepoint | internal/modules/checkout/infrastructure/reconcile_repo.go:254-297 | sells all items again, or restores the stock of the savepoint |
| Database.Db.ConfirmTx | internal/modules/checkout/infrastructure/confirm_repo.go:39-177 | all statements of a confirm, or none: every error leaves all tables as they were |
| Database.Db.Apply | internal/modules/checkout/infrastructure/reconcile_repo.go:34-194 | one webhook has the effect of Protocol.Apply on all tables |
| Database.Db.FailOrder | internal/modules/checkout/infrastructure/reconcile_repo.go:82-116 | failed payment of a pending order |
| Database.Db.PayOrder | internal/modules/checkout/infrastructure/reconcile_repo.go:120-146 | payment of a pending order |
| Database.Db.PayLate | internal/modules/checkout/infrastructure/reconcile_repo.go:148-185 | payment of an expired order |
| Database.Db.ExpireOne | internal/modules/inventory/jobs/release_expired_reservations.go:52-135 | one transaction of the expiry job, rolled back on a paid charge or another status |
| Database.Db.RunReleaseExpiredOnce | internal/modules/inventory/jobs/release_expired_reservations.go:42-138 | the whole job computes Protocol.Sweep, with the number of expired orders |
| Database.Db.Reserve | internal/modules/inventory/infrastructure/repository.go:36-63 | all lines reserved in lock order, or nothing |
| Database.Db.Resolve | internal/modules/inventory/infrastructure/repository.go:76-107 | commit or release of an order's held rows, with exactly these rows marked |
| Schema.SettleMarks | internal/platform/postgres/queries/inventory.sql.go:181-184 | the status update marks every held row of the order with the status given and no other row |
| Schema.MissedGuards | internal/platform/postgres/queries/inventory.sql.go:15-19 | a guarded update whose guard misses changes nothing |
| Transactions.ResolveExactly | internal/modules/inventory/infrastructure/repository.go:76-107 | the order's held quantities leave reserved, return to available on release only |
| Transactions.ReserveExactly | internal/modules/inventory/infrastructure/repository.go:36-63 | when a reserve goes through, the quantities it moves and the rows it adds, with 32-bit narrowing |
| Transactions.ExpireExactly | internal/modules/inventory/jobs/release_expired_reservations.go:58-131 | an expiry goes through exactly for a pending order without a paid charge, whatever the state, and what it writes |
| Database.Db.SetStock | internal/modules/inventory/infrastructure/repository.go:111-122 | optimistic write: inserts, overwrites at the expected version, or reports the conflict |
| Transactions.SetStockExact | internal/platform/postgres/queries/inventory.sql.go:199-206 | when an admin write goes through, that it leaves exactly the given quantity, keeps reserved, counts the version and touches no other row, and the error otherwise |
| Protocol.ExpiredIds | internal/platform/postgres/queries/inventory.sql.go:81-84 | the distinct orders with a held row past its time, none missing |
| StockLoops.PlaceHoldsExact | internal/modules/checkout/infrastructure/confirm_repo.go:80-97 | the line-by-line loop succeeds if and only if, per variant, the total demand is available, repeated variants included; it moves exactly that demand |
| StockLoops.PlaceHoldsAnyOrder | internal/modules/inventory/infrastructure/repository.go:37-61 | line order changes neither verdict nor stock |
| StockLoops.HoldsPlaced | internal/modules/checkout/infrastructure/confirm_repo.go:89-94 | the rows the loop adds, field by field |
| StockLoops.PlaceHoldsRefuses | internal/modules/checkout/infrastructure/confirm_repo.go:81-85 | with positive quantities the only refusal is insufficient stock |
| StockLoops.FirstFailureDecides | internal/modules/checkout/infrastructure/confirm_repo.go:80-97 | the first line that does not go through gives the reason: shortage, or a quantity below one |
| StockLoops.LockOrderAscends | internal/modules/checkout/infrastructure/confirm_repo.go:74-79 | the lock order is a permutation of the lines, ascending by variant id |
| StockLoops.SellAllExact | internal/modules/checkout/infrastructure/reconcile_repo.go:270-291 | the savepoint loop answers the same question, takes the demand from available and leaves reserved unchanged |
| StockLoops.SellAllAnyOrder | internal/modules/checkout/infrastructure/reconcile_repo.go:259-291 | item order does not matter to the savepoint loop |
| StockLoops.GuardsMatch | internal/modules/checkout/infrastructure/reconcile_repo.go:203-240 | with the demand reserved, no ignored guard of the commit and release loops misses its row, also midway, and the loops move exactly the demand |
| Ledger.SettlingKeepsLedger | internal/modules/checkout/infrastructure/reconcile_repo.go:198-248 | settling an order's held rows keeps reserved equal to the held rows and available non-negative |
| Ledger.HoldingKeepsLedger | internal/modules/inventory/infrastructure/repository.go:48-61 | so does reserving |
| Ledger.SellingKeepsLedger | internal/modules/checkout/infrastructure/reconcile_repo.go:270-296 | so does selling again after expiry |
| Ledger.UpsertKeepsLedger | internal/platform/postgres/queries/inventory.sql.go:199-206 | so does the admin write |
| Invariants.UseGivenBack | internal/platform/postgres/queries/coupons.sql.go:101-104 | when an order expires or fails its coupon counter is positive, and after the release counts the remaining users |
| Invariants.MoveIsLogged | internal/platform/postgres/queries/orders.sql.go:225-228 | a permitted move extends the order's log by one matching link |
| Confirming.ConfirmSucceedsExactly | internal/modules/checkout/infrastructure/confirm_repo.go:39-177 | the exact condition under which a confirm goes through, in terms of rows, quoted lines and amounts |
| Confirming.ConfirmDecides | internal/modules/checkout/infrastructure/confirm_repo.go:39-177 | the reason of each refusal, check by check in statement order |
| Confirming.ConfirmEffect | internal/modules/checkout/infrastructure/confirm_repo.go:39-177 | order, items, charge, stored answer and log entry of a confirm, field by field, and that carts' lines, quotes and events stay |
| Confirming.ConfirmHolds | internal/modules/checkout/infrastructure/confirm_repo.go:76-97 | one held row per quoted line, in ascending variant order, each ending at the plan's hold time |
| Confirming.ConfirmMoves | internal/modules/checkout/infrastructure/confirm_repo.go:80-119 | the quoted quantities move from available to reserved, and one coupon use is taken |
| Confirming.ConfirmConverts | internal/modules/checkout/infrastructure/confirm_repo.go:122-124 | exactly the user's active cart becomes converted |
| Confirming.InsertItemsExact | internal/modules/checkout/infrastructure/confirm_repo.go:100-110 | all quoted lines become items, or the insert fails on a CHECK constraint |
| Confirming.ConfirmKeeps | internal/modules/checkout/infrastructure/confirm_repo.go:39-177 | a confirm keeps the invariant and conserves stock |
| Preservation.FailKeeps | internal/modules/checkout/infrastructure/reconcile_repo.go:82-116 | a failed payment keeps the invariant and conserves stock |
| Preservation.PayPendingKeeps | internal/modules/checkout/infrastructure/reconcile_repo.go:120-146 | a payment keeps the invariant; held stock becomes sold stock |
| Preservation.LateSale | internal/modules/checkout/infrastructure/reconcile_repo.go:254-297 | a late payment is served if and only if, per variant, the whole order is available |
| Preservation.PayExpiredKeeps | internal/modules/checkout/infrastructure/reconcile_repo.go:148-185 | a late payment keeps the invariant on both outcomes; available stock becomes sold stock |
| Preservation.ApplyKeeps | internal/modules/checkout/infrastructure/reconcile_repo.go:34-194 | a webhook never errs, keeps the invariant and conserves stock |
| Preservation.ExpireKeeps | internal/modules/inventory/jobs/release_expired_reservations.go:58-131 | an expiry keeps the invariant and conserves stock |
| Runs.StepKeeps | internal/modules/checkout/infrastructure/confirm_repo.go:39-177 | every step of the checkout flow keeps the state sound |
| Runs.ReachableIsSound | internal/modules/checkout/infrastructure/reconcile_repo.go:34-297 | every reachable state satisfies the invariant, stored quotes are well made and plans in hand too |
| Runs.MergeIsLegalEdit | internal/modules/cart/infrastructure/cart_repository.go:150-193 | a cart merge is among the cart changes a run may make |
| RunTheorems.ChargesFollowOrders | internal/modules/checkout/infrastructure/reconcile_repo.go:81-191 | over every run: every charge has an order, every order exactly one charge; charge paid iff order paid or awaiting stock, failed iff payment failed, pending iff pending or expired |
| RunTheorems.HoldsFollowOrders | internal/modules/checkout/infrastructure/reconcile_repo.go:81-191 | over every run: a pending order holds exactly its items, variant by variant, and every held row belongs to a pending order |
| RunTheorems.MoneyCarried | internal/modules/checkout/infrastructure/confirm_repo.go:59-139 | over every run: order amounts match the items, the charge equals the total, so the second amount check never fails |
| RunTheorems.CouponsCounted | internal/platform/postgres/queries/coupons.sql.go:75-104 | over every run: the counter is the number of orders with the code that never expired or failed, within the limit; for every pending order the release guard matches; the discounted orders exceed the counter by exactly those that gave their use back and were paid |
| CouponLimit.LimitExactly | internal/modules/checkout/infrastructure/reconcile_repo.go:148-185 | over every run: discounted orders equal the counter if and only if none with the code was paid after expiry; they fit a limit if and only if counter plus late paid orders do |
| CouponLimit.LatePaymentAdds | internal/modules/checkout/infrastructure/reconcile_repo.go:148-185 | a late payment adds a discounted order and no use; the limit holds afterwards if and only if there was room for one more |
| CouponLimit.ConfirmAddsDiscount | internal/modules/checkout/infrastructure/confirm_repo.go:112-119 | a confirm that redeems keeps the discounted orders within the limit if and only if counter plus late paid orders are below it |
| CouponLimit.OnlyTheseAdd | internal/modules/checkout/infrastructure/reconcile_repo.go:34-194 | no step but such a confirm or late payment makes an order enjoy the coupon |
| CouponLimit.LimitExceeded | internal/modules/checkout/infrastructure/reconcile_repo.go:148-185 | a run from empty tables to two paid orders on a coupon with limit one, whose counter says one |
| RunTheorems.AuditReplays | internal/modules/ordering/domain/state.go:13-19 | over every run: each order's log is a chain of permitted moves from nothing to the current status, three entries at most |
| RunTheorems.StockConserved | internal/modules/checkout/infrastructure/reconcile_repo.go:34-297 | over every run: available + reserved + quantity in paid orders changes by exactly the difference between what the admin wrote and what was available before |
| RunTheorems.LedgerAlwaysBacked | internal/platform/postgres/queries/inventory.sql.go:15-19 | over every run, the repository's own steps included: reserved is the sum of the held rows, available is not negative, and every guard of a commit or release loop matches |
| RunTheorems.ReservationsSettleOnce | internal/platform/postgres/queries/inventory.sql.go:181-184 | over every run: reservation rows stay, and a settled one is never changed again |
| ReservationRuns.RowsFollowOrders | internal/modules/checkout/infrastructure/reconcile_repo.go:196-248 | over every run: a row is held iff its order is pending, committed iff it was paid without having expired, released iff it expired or failed |
| ReservationRuns.HoldLastsExactly | internal/modules/inventory/jobs/release_expired_reservations.go:45-83 | over every run: a confirmed order that is still pending survives every sweep up to its hold time and expires in every later one |
| RunTheorems.RunMovesForward | internal/platform/postgres/queries/inventory.sql.go:199-206 | over every run: rows stay, versions never fall, an unchanged version means an unchanged row |
| RunTheorems.NoLostUpdate | internal/modules/inventory/infrastructure/repository.go:111-122 | whatever run lies between read and write, the write overwrites something else than what was read if and only if no row was read and one is there now at the version sent; at version 0 that row is another admin's first write |
| RunTheorems.FirstWriteLost | internal/modules/inventory/transport/stock_handler.go:74-79 | two writes with the default version 0 both go through and the first is lost |
| RunTheorems.ConfirmedOnce | internal/modules/checkout/infrastructure/idempotency.go:35-53 | after a confirm, whatever run follows: same key and quote replay the stored answer, another quote is a conflict, no second confirm with the key succeeds |
| RunTheorems.RequestRepeats | internal/modules/checkout/application/checkout_service.go:182-232 | from the client's side: pre-check, any run, transaction, any run, then the identical request gets exactly the first answer; the key with another quote conflicts |
| RunTheorems.OrdersMatchCarts | internal/modules/checkout/infrastructure/confirm_repo.go:121-160 | over every run: keys and orders are one to one, and each user has one order per converted cart |
| RunTheorems.RunKeepsFinal | internal/modules/checkout/infrastructure/reconcile_repo.go:187-190 | over every run: paid, payment failed and awaiting stock are final |
| RunTheorems.PaymentNeverLost | internal/modules/checkout/infrastructure/reconcile_repo.go:118-190 | a first paid event with the right charge and amount settles a pending or expired order for good, as paid exactly when stock allows |
| RunTheorems.PaidChargeStays | internal/modules/inventory/jobs/release_expired_reservations.go:58-67 | an order with a paid charge never leaves its paid status, so it never expires |
| RunTheorems.WebhookActsExactly | internal/modules/checkout/infrastructure/reconcile_repo.go:42-191 | an event acts if and only if it is new, matches charge and amount and the move is still open; every table then is what the closed form says, reasons included, otherwise only the event id is recorded |
| RunTheorems.WebhookMoves | internal/modules/checkout/infrastructure/reconcile_repo.go:81-190 | per variant, an effective event moves exactly the ordered quantity: back to available, out of reserved, or, late, out of available |
| RunTheorems.RedeliveryInvisible | internal/modules/checkout/infrastructure/reconcile_repo.go:42-55 | deleting every repeated event from a run gives the same final state, whatever lies between |
| PurchaseExample.PurchaseGoesThrough | internal/modules/checkout/application/checkout_service.go:95-233 | quote, pre-check, confirm and payment of one piece lead from empty tables to a paid order, so the theorems over runs are not about nothing |
| PurchaseExample.OverflowReachesOrder | internal/modules/checkout/infrastructure/confirm_repo.go:59-139 | four pieces at 2^62 cents become an order and a charge of nothing |
| ExpirySweep.SweepIsExact | internal/modules/inventory/jobs/release_expired_reservations.go:50-137 | sweeping any distinct pending orders expires all of them, with a closed form of every table |
| ExpirySweep.SweepCorrect | internal/modules/inventory/jobs/release_expired_reservations.go:42-138 | a sweep expires exactly the orders with an overdue hold, leaves none, returns their number, keeps the invariant, and a second sweep does nothing |
| ExpirySweep.SweepAnyOrder | internal/platform/postgres/queries/inventory.sql.go:81-84 | the unordered listing is harmless: only the order of new log entries depends on it |
| ExpirySweep.SweepIsARun | internal/modules/inventory/jobs/release_expired_reservations.go:51-136 | a sweep is a run of expiry steps, so the run theorems cover interrupted sweeps |
| CartMerge.UpsertCartItem | internal/platform/postgres/queries/cart_items.sql.go:148-156 | insert, or add with the clamp at 99 |
| CartMerge.UpsertEffect | internal/platform/postgres/queries/cart_items.sql.go:148-156 | one line's quantity becomes the clamped sum at the offered price, other quantities and carts stay |
| CartMerge.ClampIsMinimum | internal/platform/postgres/queries/cart_items.sql.go:152 | the clamp is the lesser of the sum and 99 |
| CartMerge.MergeAttempt | internal/modules/cart/infrastructure/cart_repository.go:150-193 | one attempt has the effect of MergeOnce, or none |
| CartMerge.MergeCarts | internal/modules/cart/infrastructure/cart_repository.go:133-143 | two attempts, the second only after a unique violation |
| CartMerge.MergeQuantities | internal/modules/cart/infrastructure/cart_repository.go:150-193 | the user's cart ends with min(user + anonymous, 99) per variant; every other cart keeps its lines |
| CartMerge.MergedTables | internal/modules/cart/infrastructure/cart_repository.go:158-192 | the schema's constraints hold afterwards, the anonymous cart is retired, other owners keep their active carts |
| CartMerge.MergedCarts | internal/modules/cart/infrastructure/cart_repository.go:166-191 | exactly the session's active cart becomes merged, at most a new cart for the user is added |
| CartMerge.MergePrices | internal/modules/cart/infrastructure/cart_repository.go:178-187 | merged variants carry the anonymous cart's prices, the user's other rows stay as they were |
| CartMerge.MergeWithRetry | internal/modules/cart/infrastructure/cart_repository.go:133-143 | with its retry a merge fails only when a new cart is needed and both ids are taken, and equals the attempt with the first free id |
| CartMerge.MergeAgainIsNothing | internal/modules/cart/infrastructure/cart_repository.go:158-161 | the exact condition for a merge to go through; repeating it changes nothing |
| CartMerge.MergeAllEffect | internal/platform/postgres/queries/cart_items.sql.go:148-156 | after several merges the user holds the sum over all sessions, clamped once |
| CartMerge.MergeAnyOrder | internal/modules/cart/infrastructure/cart_repository.go:133-143 | merging several anonymous carts gives the same quantities in any order |

## Left out

- Statement-level interleaving, row locks, isolation and deadlocks: each transaction is one step, so lock order matters only as a permutation of the lines.
- SHA-256, HMAC signatures, JSON encoding, random ids: pre-images, parameters and plain values stand for them.
- Address, shipping and product snapshots, row ids, timestamps of rows and `raw_payload`: stored and never read by the protocol.
- Foreign keys to users, catalog and, for the repository's own reserve, orders: a missing row would only add a rollback.
- The range of 32-bit counters (`available`, `reserved`, `version`, `used_count`): Postgres refuses an update that leaves it, which is a rollback; quantities and versions passed by callers are narrowed to 32 bits as in the source.
- Errors of the database, of the payment provider and of the pricing, shipping and address services beyond "not found": they end the operation before or by a rollback.
- `CouponRepo.Redeem` and `Release` as steps of their own: nothing in the wired flow calls them, and they would break the coupon counter.
- The `refunded` charge status, `SetOrderStatus` and the abandoned-cart cleanup: no step of the protocol writes or needs them.
- The cart operations other than merge: a run may replace the cart tables by any the schema allows as long as no cart becomes or stops being converted, which covers them all.
- CartMerge.MergeCarts: the retry answers a concurrent creation of the user's cart; with atomic attempts the only unique violation left is a taken cart id.
- StockLoops.SellAllExact: the items' quantities are taken to be positive and the reserved counters non-negative, as the CHECK constraints on both tables demand.
- RunTheorems.StockConserved: the inventory repository's own reserve and resolve are not among the steps; nothing in the wired flow calls them, and a commit through them sells stock without an order.
- HTTP handlers, middleware, sessions, rate limiting, configuration, catalog, images, search, email and identity: plumbing and simple table access.
