# Verification of the shop API's core

This project models the parts of a Go shop API where correctness depends on several aggregates
at once, and proves what every run of them keeps. The language is Dafny 4.11; `dafny verify
dfyconfig.toml` checks everything.

## The checkout saga

An order row moves only by compare-and-set along a fixed transition table and carries two flags,
`stock_deducted` and `stock_reversed`. Payment rows move by their own compare-and-sets. Each
product has an available and a reserved quantity, changed by guarded batch updates. Each coupon
has a use count and usage rows. Charges, webhooks, cancels, refunds and housekeeping sweeps meet
on these tables in any order; several of their errors are logged and swallowed inside a
transaction that then commits.

* `OrderState`, `Inventory`, `Promotion`, `Cart` hold the entities and their statements.
* `Database` is the imperative form: a class whose methods reassign the tables statement by
  statement, restore them on rollback and swallow the errors the services swallow. Each
  transaction method is proved equal to one function of `Saga`.
* `Services` holds the calls that span several transactions. Each is proved to be one definite run
  of the saga's steps, returned with its result. A contract speaks of the call as nothing else
  commits between its transactions, except that a charge may lose its insert to another; with
  other calls between them the same steps are a longer run, of which the run theorems speak.
* `SagaInvariant`, `SagaCore`, `SagaStock`, `SagaPlace` prove the inductive invariant step by step,
  `SagaEffects` what each transaction does for every status it can find, `SagaLedger` what holds
  however stale the rows are; `SagaRuns` and `SagaTheorems` lift them to
  every run. A state that satisfies the invariant is called sound; every run whose cancels are
  careful, as defined below, reaches sound states only.

A run (`SagaRuns.Run`) is any interleaving of steps. A cancel or an expiry acts on an order row
read at any earlier moment (`snaps`), and a refund settles a payment that passed its refundable
check at any earlier moment (`cleared`), so reads taken before a transaction are as stale as they
can be. A transaction that fails and rolls back is a step that does not happen. A ghost history
counts the committed stock movements of each order.

One property is false of the code. A cancel reads the order before its transaction and selects
release or restock from that stale row. From `awaiting_payment` and `payment_processing` the flags
cannot have changed (`SagaTheorems.StaleReadsHarmless`), but `ToCancelled` also accepts
`fulfillment_failed`, which a cancelled and charged order re-enters.
`SagaStaleCancel.StaleCancelReleasesTwice` is a run of steps in which one hold is released twice.
`SagaStock.ReverseExact` and `SagaRuns.StepStock` say exactly when a step keeps the stock right: the
stale row must select the same restore as the current one, or the restore must be refused. A run
keeps it right throughout if and only if its cancels do (`SagaTheorems.CarefulExactly`), as do all
runs whose cancels read and act in one instant (`SagaRuns.FreshIsCareful`). Only the clauses a stale
cancel can break carry that condition: the sum of the holds, conservation, one restore for each
order, and restores that are never refused. Everything else holds for all runs.

## The other cores

* `Category`: the category tree and the ancestor walk that is cut off by depth. The tree stays
  acyclic under Create, Update and Delete. `MaxDepth` is not a bound on the tree's depth, although
  its name and error message suggest one: a move does not look below the moved category
  (`Category.MovedSubtreeSinks`; `Category.DepthKeptExactly` says which moves keep the bound). Two
  racing updates, each validated on the same table, can close a cycle
  (`Category.RacingMovesCloseCycle`; `Category.RacingMovesExactly` says which do).
* `CircuitBreaker`: the comment in the source says that only the probe may end a cooldown. The
  breaker cannot tell whose reply it is given, and a call let through before the trip ends it by
  replying while the probe is out (`CircuitBreaker.LateReplyCloses`). Only probes do exactly when no
  such call is waiting (`CircuitBreaker.OnlyProbesClose`).
* `FallbackLimiter`: the in-process fixed-window limiter with its bounded map and shared overflow. A key is
  refused up to and including the moment its Retry-After names (`FallbackLimiter.RetryAfterIsExact`).
* `Base64`, `Paging`: the cursor codec and keyset paging.
* `Discount`: the float64 percentage of a discount, for any rounding with the relative error of
  IEEE 754-2019, section 4.3.1. It is exact below 2^53; up to 2^54 it is one too high exactly for
  products that end in 99.

## Model

| member | source | states |
|---|---|---|
| OrderState.FlagsReachedExactly | internal/features/order/domain/state.go:15-89 | a status and flag pair is reached from a placed order by some path of the table if and only if the status admits the pair |
| OrderState.PathKeepsFit | internal/features/order/domain/state.go:15-89 | along any path flags are never cleared, the rank never falls and a payable status is never re-entered |
| OrderState.CyclesAreConfined | internal/features/order/domain/state.go:15-89 | the only cycles lie inside {awaiting_payment, payment_processing} and {cancelled, fulfillment_failed} |
| OrderState.TableIsGraph | internal/features/order/domain/state_test.go:38-74 | the transitions lead from each status to exactly the statuses the state graph lists |
| OrderState.NarrowerTransitions | internal/features/order/domain/state_test.go:76-89 | a payment attempt refuses an order being charged and failing after a charge one never charged; they differ from their siblings in nothing else |
| Inventory.ReleaseUndoesReserve | internal/features/inventory/adapter/postgres/repository.go:118-193 | releasing an accepted reservation is never refused and gives back every level |
| Inventory.CountedAll | internal/features/inventory/adapter/postgres/repository.go:138-140 | comparing the number of updated rows with the number requested detects exactly the batches that missed a row |
| Promotion.ReserveCounts | internal/features/promotion/service.go:168-206 | a coupon claim keeps use counts equal to usage rows, stays within the limit and discounts at most the subtotal |
| Promotion.ReleaseCounts | internal/features/promotion/service.go:208-224 | a release keeps use counts equal to usage rows, its guard never blocks, and a second release of the order changes nothing |
| Promotion.DiscountMeans | internal/features/promotion/domain/promotion.go:93-111 | a discount is at most the subtotal, a percentage is cut to the maximum when one is set, a fixed amount is its value |
| Promotion.ReserveExactly | internal/features/promotion/service.go:168-206 | who may claim a coupon, by its flag, window, limit, minimum order and earlier use, and the error of everyone else |
| Cart.PricedMeans | internal/features/order/service.go:118-131 | what Place charges is the sum of the item subtotals in one currency, every line is published, and it is the cart's total |
| Cart.TotalPricesSellable | internal/features/cart/domain/cart.go:44-63 | the cart's total is what Place would charge for its sellable lines alone, and fails exactly when that fails |
| Cart.CartTotal | internal/features/cart/domain/cart.go:44-63 | the loop computes the cart total |
| Cart.QuantitiesMember | internal/features/order/service.go:298-313 | the quantities of an order name exactly its products, each with the quantity of one of its items |
| Database.Store.Apply | internal/features/order/adapter/postgres/repository.go:357-374 | the compare-and-set on an order row: it wins exactly from an accepted status, ORs the flags, and otherwise changes nothing |
| Database.Store.Transit | internal/features/order/service.go:444-474 | Apply on its own is one step of the saga |
| Database.Store.UpdateStatus | internal/features/payment/adapter/postgres/repository.go:115-134 | the compare-and-set on a payment row, with the unique index on active payments |
| Database.Store.ActivePayment | internal/features/payment/adapter/postgres/repository.go:83-113 | finds an active payment of the order if and only if there is one |
| Database.Store.InsertPayment | internal/features/payment/adapter/postgres/repository.go:29-50 | inserts a pending payment unless another is active |
| Database.Store.EnqueueRefund | internal/features/payment/service.go:278-293 | an admin refund enqueues a job exactly for a refundable payment |
| Database.Store.Reserve | internal/features/inventory/adapter/postgres/repository.go:118-142 | the guarded batch moves the rows that have enough available, and the row count says whether all did |
| Database.Store.Deduct | internal/features/inventory/adapter/postgres/repository.go:144-167 | the batch lowers reserved where its guard passes, and the error says whether all did |
| Database.Store.ReleaseBatch | internal/features/inventory/adapter/postgres/repository.go:169-193 | the batch moves reserved back to available where its guard passes, and the error says whether all did |
| Database.Store.RestockBatch | internal/features/inventory/adapter/postgres/repository.go:195-215 | available of every listed product grows by its quantity; reserved, the other products and every other table stay as they were |
| Database.Store.Restore | internal/features/inventory/service.go:94-105 | release or restock, by whether the order's stock had been deducted |
| Database.Store.AdjustStock | internal/features/inventory/adapter/postgres/repository.go:29-48 | sets the units on hand, refused below the reserved quantity |
| Database.Store.RestockProduct | internal/features/inventory/adapter/postgres/repository.go:50-66 | adds units to a product that has a level |
| Database.Store.ReserveUsage | internal/features/promotion/service.go:168-206 | the statements of a coupon claim, error by error |
| Database.Store.ReleaseUsage | internal/features/promotion/service.go:208-224 | the statements of a coupon release |
| Database.Store.FinalizeSuccess | internal/features/payment/service.go:159-244 | the transaction, rollback included, is the saga's Finalize, and returns the error of its outcome; SagaEffects.FinalizePays, FinalizeParks and FinalizeRefuses say which outcome that is |
| Database.Store.CompensateRefund | internal/features/payment/service.go:246-276 | the best-effort transaction is the saga's Compensate |
| Database.Store.CheckRefundable | internal/features/payment/service.go:408-424 | the check before the gateway refund passes exactly refundable payments |
| Database.Store.SettleTx | internal/features/payment/service.go:454-508 | the settle transaction, swallowed errors included, is the saga's Settle |
| Database.Store.CancelWithReversal | internal/features/order/service.go:538-574 | the cancel transaction on a row read earlier is the saga's Reverse with ToCancelled |
| Database.Store.ExpireOne | internal/features/order/service.go:576-586 | the expiry transaction on a listed row is the saga's Reverse with ToExpired; losing the compare-and-set is no error; SagaEffects.ExpireExactly says when it wins |
| Database.Store.ReleaseHolds | internal/features/order/service.go:588-614 | gives back the stock the earlier row calls for, then the coupon |
| Database.Store.FinalizeFreeOrder | internal/features/order/service.go:524-535 | the transaction is the saga's FinalizeFree; it fails exactly when the order is not payable or its hold is not covered |
| Database.Store.PlaceOrder | internal/features/order/service.go:100-169 | the transaction is the saga's Place: any error leaves every table as it was |
| Database.Store.PriceCart | internal/features/order/service.go:101-136 | the pricing loop gives the order row, its reservations, or the first error |
| Database.Store.CreateShipment | internal/features/shipping/service.go:35-70 | the shipment row and the order move commit together, or neither does and the error is a conflict |
| Database.Store.DeliverShipment | internal/features/shipping/service.go:72-95 | the delivery and the order move commit together; a missing shipment and an order that is not shipped are told apart |
| Services.FinalizeOrCompensate | internal/features/payment/service.go:120-137 | a finalization, then a compensation exactly when that failed otherwise than by having nothing left to do; from a sound state an unsettled payment ends as the payment of a paid order or with a refund job |
| Services.Charge | internal/features/payment/service.go:66-156 | reuses an active payment or creates the new one; from a sound state an approved charge of an unpaid order leaves it paid or, when the database fails, owed back, and any other leaves the payment open |
| Services.HandleWebhook | internal/features/payment/service.go:296-383 | a success finalizes or compensates, a failure drops the payment and cancels an unpaid order, any other event or payment is a run of no steps |
| Services.SettleRefund | internal/features/payment/service.go:402-514 | settles exactly a refundable payment the gateway refunded, and then the refund is made in full; otherwise it returns which check failed and no table changes |
| Services.Place | internal/features/order/service.go:65-196 | a replayed key returns its order and changes nothing; otherwise a draft's error or the placed order, finalized at once when free |
| Services.CancelByUser | internal/features/order/service.go:327-345 | a stranger's order and a charging order are refused without a change; from a sound state an unpaid or failed order is cancelled with stock and coupon given back |
| Services.CancelUnpaid | internal/features/order/service.go:347-357 | from a sound state an unpaid or failed order is cancelled with stock and coupon given back, and any other refused without a change |
| Services.ChangeStatus | internal/features/order/service.go:359-395 | which statuses a direct change accepts from which, named one by one, and the error otherwise; flags are left alone |
| Services.ExpireStale | internal/features/order/service.go:397-417 | expires each listed row in turn, on the row as listed |
| Services.RecoverStale | internal/features/order/service.go:419-442 | releases each listed payment claim that is still held |
| Services.CreateShipment | internal/features/shipping/service.go:35-70 | a missing order, one neither paid nor processing, and one already shipped are told apart and change nothing; any other is shipped |
| Services.PlaceOrder | internal/features/checkout/service.go:41-67 | a replayed key changes nothing and never charges; a refused placement changes nothing; from a sound state a new order is paid when free or approved, owed back when the database fails, and awaiting payment with an open payment otherwise |
| Services.RetryPayment | internal/features/checkout/service.go:69-106 | only an awaiting order is claimed and charged; from a sound state an approved retry leaves it paid or owed back, one waiting for the buyer leaves it claimed with an open payment, and a failed one leaves every order as it was |
| Services.CapturedSettles | internal/features/payment/service.go:120-137 | a captured payment not settled before pays an unpaid order unless the database fails, and is owed back with a refund job in every other case |
| Services.ChargeSettles | internal/features/payment/service.go:66-156 | what the steps of a charge leave, for every reply of the gateway |
| SagaInvariant.CasOrders | internal/features/order/adapter/postgres/repository.go:357-374 | any compare-and-set keeps row, key and item clauses, and what earlier readers know of the row |
| SagaInvariant.LevelsCarry | internal/features/inventory/adapter/postgres/repository.go:118-215 | when one order moves, every level stays right if and only if it moved by what the order's hold and taken units moved by |
| SagaCore.FinalizeClassified | internal/features/payment/service.go:159-244 | a finalization never finds the amounts different and never moves the order without its payment |
| SagaCore.CompensateClassified | internal/features/payment/service.go:246-276 | unless the unique index rolls it back, a compensation leaves a refund job, an order no longer payable and a parked or dropped payment |
| SagaCore.SettleFindsSettled | internal/features/payment/service.go:454-495 | when MarkRefunded loses, the order is already reversed, whatever ran since the refundable check |
| SagaCore.NoneCaptured | internal/features/payment/service.go:179-231 | no payment of a payable order has captured funds |
| SagaStock.OwnHold | internal/features/inventory/adapter/postgres/repository.go:144-193 | neither Deduct nor Release ever refuses an order its own hold |
| SagaStock.PaidStock | internal/features/order/service.go:524-535 | paying an order deducts exactly its hold and keeps stock and ledger right |
| SagaStock.DueRestoreStock | internal/features/inventory/service.go:94-105 | reversing an order with the restore its flags and dispatch history call for keeps stock and ledger right |
| SagaStock.WrongRestoreBreaks | internal/features/inventory/service.go:94-105 | reversing it with any other accepted restore leaves some level wrong |
| SagaStock.ReverseExact | internal/features/order/service.go:538-614 | a cancel or expiry on a stale row keeps stock and ledger right if and only if that row selects the current row's restore or the restore is refused |
| SagaStock.PayableRowsAreFresh | internal/features/order/service.go:538-586 | while an order is payable a stale row's flags are the row's, so an expiry is always harmless |
| SagaStock.SettleStock | internal/features/payment/service.go:454-508 | a settle keeps stock and ledger right, its restore is never refused, and it restores only an order it won to refunded |
| SagaEffects.FinalizePays | internal/features/payment/service.go:179-243 | a captured payment of an order awaiting payment or being charged succeeds, the order is paid and its hold leaves the reserved stock |
| SagaEffects.FinalizeParks | internal/features/payment/service.go:197-231 | on any other order it is parked with a refund job, unless it was settled before or another payment is active |
| SagaEffects.FinalizeRefuses | internal/features/payment/service.go:163-177 | a missing payment or order, and an amount or currency that differs from the total, is refused without a change in any state |
| SagaEffects.CompensateExactly | internal/features/payment/service.go:246-276 | which payment is parked and which order failed by a compensation, status by status; a refund job is always enqueued unless another active payment rolls it back |
| SagaEffects.FreeExactly | internal/features/order/service.go:524-535 | a free order awaiting payment is paid and its hold deducted |
| SagaEffects.ExpireExactly | internal/features/order/service.go:576-614 | an expiry reverses an awaiting order, however long ago it was listed, and no other, not even one being charged |
| SagaEffects.CancelExactly | internal/features/order/service.go:538-574 | a cancel reverses an unpaid or failed order, giving back its stock and its coupon, and no other |
| SagaEffects.SettleExactly | internal/features/payment/service.go:454-508 | a settle refunds the payment and reverses the order, giving stock back exactly before shipping and once |
| SagaEffects.AdvanceExactly | internal/features/order/domain/state.go:15-56 | which status each claim, release and direct change asks for and gives, flags kept |
| SagaEffects.ShipExactly | internal/features/shipping/service.go:35-70 | a shipment is made exactly for a paid or processing order without one |
| SagaEffects.DeliverExactly | internal/features/shipping/service.go:72-95 | a delivery marks shipment and order exactly when the order is shipped |
| SagaEffects.CreateExactly | internal/features/payment/adapter/postgres/repository.go:29-50 | the inserted payment is pending, for the order's total, unless another is active |
| SagaEffects.DropExactly | internal/features/payment/service.go:344-352 | a failed event drops a pending payment and no other |
| SagaEffects.RequestExactly | internal/features/payment/service.go:278-293 | an admin refund enqueues a job exactly for a successful or parked payment |
| SagaEffects.AdjustExactly | internal/features/inventory/adapter/postgres/repository.go:29-48 | setting the units on hand keeps what is reserved and is refused below it |
| SagaEffects.TopUpExactly | internal/features/inventory/adapter/postgres/repository.go:50-66 | a restock adds its units to available |
| SagaEffects.EditPromoExactly | internal/features/promotion/service.go:88-147 | an edit never writes the use count |
| SagaPlace.DraftMeans | internal/features/order/service.go:100-169 | a placed order is the priced cart: subtotal is the sum of its items and the cart's total, total plus discount is the subtotal, and the discount respects the coupon's value and maximum |
| SagaPlace.DraftItem | internal/features/order/service.go:142-154 | each item of a placed order is the cart line in its place, published, at the catalog's price |
| SagaPlace.PlaceExactly | internal/features/order/service.go:100-169 | when an order can be placed, and which error a placement gives otherwise |
| SagaPlace.PlaceMoves | internal/features/order/service.go:131-169 | a placed order moves exactly its quantities from available to reserved, records one coupon use, and empties the cart; nothing else changes |
| SagaRuns.CoreAlways | internal/features/payment/service.go:66-514 | every run keeps the order, payment, coupon and dispatch clauses |
| SagaRuns.StepStock | internal/features/order/service.go:538-614 | from a right state any step keeps stock and ledger right if and only if it is not a cancel committing the wrong restore |
| SagaRuns.StockAlways | internal/features/inventory/adapter/postgres/repository.go:118-215 | every run whose cancels are careful keeps stock and ledger right |
| SagaRuns.FreshIsCareful | internal/features/order/service.go:327-357 | runs whose cancels act on the row as it is are careful |
| SagaLedger.StepLedger | internal/features/inventory/adapter/postgres/repository.go:118-215 | every step, however stale its row, keeps each deduction single and every restore after its reversal and before any dispatch |
| SagaLedger.StepNonNegative | internal/features/inventory/adapter/postgres/repository.go:29-215 | every step, however stale its row, keeps available and reserved from going negative |
| SagaTheorems.StockAccounted | internal/features/inventory/adapter/postgres/repository.go:118-215 | no quantity is ever negative; in careful runs reserved is the sum over exactly the undeducted, unreversed orders and units are conserved |
| SagaTheorems.CarefulExactly | internal/features/order/service.go:538-614 | a run keeps stock and ledger right at every moment if and only if its cancels are careful |
| SagaTheorems.CancelUndoesPlace | internal/features/order/service.go:100-169 | in every reachable state, cancelling an order right after placing it gives back every level and every coupon use |
| SagaTheorems.MovedAtMostOnce | internal/features/payment/service.go:478-495 | stock is deducted exactly when the flag says, at most once; nothing is restored before a reversal or after shipping; in careful runs it is restored once exactly when reversed before shipping, by a restock exactly after a deduction |
| SagaTheorems.CapturedForGood | internal/features/payment/service.go:179-231 | an order with captured funds has left the payable statuses in every later state |
| SagaTheorems.OneSuccessRightAmount | internal/features/payment/service.go:171-192 | in every later state at most one payment of an order is successful, and a payment's amount is its order's unchanging total |
| SagaTheorems.OneSuccessEver | internal/features/payment/service.go:159-244 | once a payment of an order is successful, no other ever is, then or later |
| SagaTheorems.OneActive | internal/features/payment/adapter/postgres/repository.go:83-113 | in every run at most one payment of an order is pending, in progress or under review |
| SagaTheorems.NoLateSuccess | internal/features/payment/service.go:179-231 | no step makes a payment of an order that is no longer payable successful |
| SagaTheorems.FinalizeAlwaysClean | internal/features/payment/service.go:159-244 | a finalization pays and deducts for the first time, or parks on an order no longer payable, or changes nothing; in careful runs it is never refused stock |
| SagaTheorems.FinalizeTakesEffect | internal/features/payment/service.go:159-244 | in runs: a captured payment pays an unpaid order or is parked with a refund job, unless it was settled before or another is active |
| SagaTheorems.SettleAlwaysClean | internal/features/payment/service.go:454-508 | a settle restores only when MarkRefunded wins and leaves the payment refunded and the order reversed; in careful runs the error it swallows never occurs |
| SagaTheorems.StaleReadsHarmless | internal/features/order/service.go:538-586 | the flags an expiry listed, or a cancel read, are the row's whenever it wins from a payable status |
| SagaTheorems.CouponsCounted | internal/features/promotion/service.go:168-224 | a coupon's count is its usage rows, which are the unreversed orders that carry it |
| SagaTheorems.CapHeld | internal/features/promotion/adapter/postgres/repository.go:169-184 | a step takes a coupon past its limit if and only if it is an edit that sets the limit below the uses |
| SagaTheorems.CapAlways | internal/features/promotion/adapter/postgres/repository.go:169-184 | in every run without such an edit the uses stay within the limit |
| SagaTheorems.Replay | internal/features/order/service.go:74-86 | in every later state the key names the one order it placed, and placing it again is refused without a trace |
| SagaTheorems.OnlyReleaseReopens | internal/features/order/domain/state.go:15-33 | an order returns to awaiting payment by the release of a payment claim and by nothing else |
| SagaTheorems.ClaimsAreSeparated | internal/features/checkout/service.go:84-103 | between two winning payment claims on one order lies a winning release |
| SagaTheorems.ChargeEnds | internal/features/order/domain/state.go:15-89 | in every run an order leaves payment_processing only by the release of its claim, a payment, a compensation or a cancel |
| SagaStaleCancel.StaleCancelReleasesTwice | internal/features/order/service.go:538-562 | a run of steps in which a stale cancel releases one hold twice |
| Category.AcceptedExactly | internal/features/category/adapter/postgres/repository.go:140-167 | a parent is accepted if and only if its chain reaches a root within four rows and misses the category written, on any table |
| Category.ShortWalkIsWhole | internal/features/category/adapter/postgres/repository.go:150-163 | a walk shorter than its cut-off ended at a root and saw exactly the ancestors |
| Category.ForestHasNoCycle | internal/features/category/domain/category.go:38-50 | when every chain ends at a root, no category is its own ancestor |
| Category.WriteExact | internal/features/category/service.go:113-131 | writing a parent keeps the forest if and only if the parent is not the category or one of its descendants |
| Category.DepthKeptExactly | internal/features/category/domain/category.go:38-50 | an accepted move keeps every category within MaxDepth if and only if everything below the moved one fits below the new parent |
| Category.NewKeepsDepth | internal/features/category/service.go:57-71 | creating an accepted category keeps every category within MaxDepth |
| Category.Service.Create | internal/features/category/service.go:30-76 | keeps the forest and the depth bound; succeeds exactly for an accepted parent and a free slug, and writes what was asked |
| Category.Service.Update | internal/features/category/service.go:78-132 | keeps the forest; succeeds exactly for an existing category, an accepted parent and a free slug; absent arguments keep their column; keeps the depth bound exactly when what is below it fits |
| Category.Service.Delete | internal/features/category/service.go:134-148 | keeps the forest; succeeds exactly for an existing category nothing refers to |
| Category.MovedSubtreeSinks | internal/features/category/domain/category.go:45-47 | an accepted move can put a category deeper than MaxDepth |
| Category.RacingMovesCloseCycle | internal/features/category/service.go:113-131 | two moves accepted on the same table can together close a cycle |
| Category.RacingMovesExactly | internal/features/category/service.go:113-131 | two moves accepted on the same table keep the forest if and only if not each goes below the other |
| CircuitBreaker.CircuitBreaker.Allow | internal/platform/redis/circuit_breaker.go:27-46 | lets a call through when closed or past the gate, and then re-arms the gate; CircuitBreaker.TripEnds, ProbeExpires and ClosedAdmits say when that is |
| CircuitBreaker.CircuitBreaker.ReportResult | internal/platform/redis/circuit_breaker.go:48-82 | the three kinds of report move the fields as the run theorems assume |
| CircuitBreaker.AdmissionsApart | internal/platform/redis/circuit_breaker.go:27-46 | while the breaker stays open, the first call let through waits for the gate and the others are at least a cooldown apart |
| CircuitBreaker.OpenAdmitsFew | internal/platform/redis/circuit_breaker.go:27-46 | after any run from the start, over a span T an open breaker lets through at most 1 + T / cooldown calls, each at least a cooldown after the one before |
| CircuitBreaker.CountsStreak | internal/platform/redis/circuit_breaker.go:55-82 | the counter is the number of failures since the last reply, modulo five |
| CircuitBreaker.ProbingMeans | internal/platform/redis/circuit_breaker.go:40-43 | the probing flag is set exactly while some call admitted past the gate has seen no failure or reply since |
| CircuitBreaker.ReportsMoveGate | internal/platform/redis/circuit_breaker.go:48-82 | a report trips exactly on every fifth failure of a streak and closes exactly on a reply while a probe is out |
| CircuitBreaker.TripHoldsAfterFifth | internal/platform/redis/circuit_breaker.go:59-65 | within a cooldown of a trip no call is let through and nothing closes the breaker |
| CircuitBreaker.TripEnds | internal/platform/redis/circuit_breaker.go:36-46 | a cooldown after the fifth failure, and not before, a call is let through again |
| CircuitBreaker.ProbeExpires | internal/platform/redis/circuit_breaker.go:36-46 | a cooldown after a probe that has not answered, and not before, the next call is let through |
| CircuitBreaker.ClosedAdmits | internal/platform/redis/circuit_breaker.go:31-34 | while no streak reaches five every call is let through |
| CircuitBreaker.ReplyReadmits | internal/platform/redis/circuit_breaker.go:56-67 | a reply while a probe is out lets the next call through |
| CircuitBreaker.CanceledIsNeutral | internal/platform/redis/circuit_breaker.go:69-73 | dropping every hang-up from a run changes neither the state nor who is let through |
| CircuitBreaker.LateReplyCloses | internal/platform/redis/circuit_breaker.go:53-66 | a call let through before the trip, replying while the probe is out, closes the breaker with the probe unanswered |
| CircuitBreaker.OnlyProbesClose | internal/platform/redis/circuit_breaker.go:53-66 | while a probe is out only a probe can close the breaker, if and only if no call from before it opened is still waiting |
| CircuitBreaker.SpellEndsByProbe | internal/platform/redis/circuit_breaker.go:27-82 | when no older call is waiting at some moment of an open spell, the reply that ends the spell is a probe's |
| FallbackLimiter.FallbackLimiter.Allow | internal/platform/web/middleware/ratelimit.go:144-173 | the method's answer and new fields are those of the step function the run theorems use |
| FallbackLimiter.FallbackLimiter.AllowOverflow | internal/platform/web/middleware/ratelimit.go:175-186 | charges the shared window and reports its first call |
| FallbackLimiter.FallbackLimiter.ReclaimExpired | internal/platform/web/middleware/ratelimit.go:188-194 | the loop deletes exactly the expired keys |
| FallbackLimiter.MapIsBounded | internal/platform/web/middleware/ratelimit.go:161-168 | the map never holds more than 10 000 keys |
| FallbackLimiter.KeyProjects | internal/platform/web/middleware/ratelimit.go:144-194 | a run acts on one key's window as a sequence of hits and reclaims, whatever other keys do |
| FallbackLimiter.TracksExactly | internal/platform/web/middleware/ratelimit.go:161-172 | a caller gets its own window exactly when it has one, the map has room, or a scan is due and finds an expired key; a new window lets its first call through |
| FallbackLimiter.TwiceTheCap | internal/platform/web/middleware/ratelimit.go:149-156 | of any 2 * cap + 1 grants in a row the last comes more than a window after the first |
| FallbackLimiter.KeyIsLimited | internal/platform/web/middleware/ratelimit.go:144-173 | a key gets at most 2 * limit grants in any window's length, and is refused only after limit grants within the last one |
| FallbackLimiter.RetryAfterIsExact | internal/platform/web/middleware/ratelimit.go:148-159 | a refused key stays refused up to and including the announced moment and is let through at any later one |
| FallbackLimiter.OverflowIsLimited | internal/platform/web/middleware/ratelimit.go:175-186 | the overflow grants at most limit * 10 000 calls per overflow window, and refuses only after that many within the last window |
| FallbackLimiter.SaturatedExactly | internal/platform/web/middleware/ratelimit.go:175-186 | saturation is reported exactly by the call that begins an overflow window |
| FallbackLimiter.AlarmsApart | internal/platform/web/middleware/ratelimit.go:175-186 | reports of saturation are more than a window apart |
| FallbackLimiter.SweepsApart | internal/platform/web/middleware/ratelimit.go:161-164 | the map is scanned at most once per window |
| Base64.DecodeEncode | internal/platform/paging/cursor.go:36-45 | decoding undoes encoding for any bytes |
| Base64.EncodeDecode | internal/platform/paging/cursor.go:40-45 | encoding undoes decoding exactly for text without line breaks whose spare bits are zero |
| Base64.QuantumBits | internal/platform/paging/cursor.go:36-38 | four letters stand for the 24 bits of the three bytes they encode, most significant first |
| Base64.LetterIsAlphabet | internal/platform/paging/cursor.go:36-38 | the letters are the URL-safe alphabet |
| Base64.SpareBitsAreIgnored | internal/platform/paging/cursor.go:40-44 | decoding ignores the spare bits before the padding |
| Base64.BreaksAreSkipped | internal/platform/paging/cursor.go:40-44 | decoding skips line breaks wherever they stand |
| Paging.CursorRoundTrip | internal/platform/paging/cursor.go:36-51 | a decoded cursor gives back its parts if and only if the timestamp holds no bar |
| Paging.CursorExactly | internal/platform/database/query.go:17-25 | a malformed cursor is refused, one the database cannot read fails, any other selects the rows below it |
| Paging.PageLimit | internal/platform/paging/cursor.go:27-34 | the page size is the caller's between 1 and 100, and 20 otherwise |
| Paging.CursorPage | internal/platform/web/response/pagination_cursor.go:14-27 | the page is the first limit rows, with a cursor exactly when one more row was fetched |
| Paging.ListingMeans | internal/features/order/adapter/postgres/repository.go:82-88 | the full listing holds each row once, in strictly descending (created_at, id) order |
| Paging.ListingSplits | internal/platform/database/query.go:17-25 | cutting the listing after n rows leaves the listing of the rows below the last of them |
| Paging.NextPage | internal/platform/web/response/pagination_cursor.go:14-27 | a page with more behind it is full, and its cursor leaves exactly the rows still to list |
| Paging.PagesListEveryRow | internal/features/order/adapter/postgres/repository.go:63-100 | following the cursors ends and yields every row of the user once, newest first, at any limit |
| Paging.PagesIgnoreNewer | internal/platform/database/query.go:17-25 | rows that come or go above a cursor do not disturb the pages still to come |
| Discount.PercentIsExact | internal/features/promotion/domain/promotion.go:97-98 | the float64 percentage is the exact floor whenever the product is below 2^53 |
| Discount.PercentIsHighPast53 | internal/features/promotion/domain/promotion.go:97-98 | at 2^53 + 7 rounding to nearest even makes it one too high |
| Discount.PercentPast53Exactly | internal/features/promotion/domain/promotion.go:97-98 | between 2^53 and 2^54, rounding to nearest even, it is one too high exactly when the product ends in 99 |
| Discount.DiscountIsBounded | internal/features/promotion/domain/promotion.go:93-111 | with value and maximum not negative and a percentage that fits int64, the discount lies between zero and the subtotal; Promotion.DiscountMeans says which number it is |
| Discount.DiscountIsBoundedExactly | internal/features/promotion/domain/promotion.go:93-111 | on a machine whose conversion makes what does not fit negative, it does if and only if the percentage fits int64 |
| Discount.PercentFits | internal/features/promotion/domain/promotion.go:60-65 | the percentage fits for every validated value and any subtotal up to 2^62 |

## Left out

- Isolation: each transaction, and each statement outside one, is atomic; row locks, lock order and isolation levels are not modelled. A database error inside a transaction, such as a violation of the unique index on active payments, rolls the whole transaction back.
- Integer width: amounts, quantities and counts are unbounded; overflow of int64 is not modelled, except in the conversion of the discount's percentage.
- Clocks, gateway replies, the product catalog, generated ids and slugs, and which rows a sweep lists are parameters or any value at all; what a sweep's query lists is not restricted by age.
- Cart lines have positive quantities, as the cart's own requests demand; adding, capping and removing lines is one step that sets a cart.
- The floored float64 percentage enters Place as a parameter; module Discount says what it is.
- Refund jobs are never removed, so a settle may run more often than the queue would run it; that a parked payment is eventually refunded is not claimed, since cancelling an order cancels its jobs.
- Coupons are identified by their code: renaming and deleting a promotion are not modelled. The usage rows' uniqueness per coupon and user is.
- Addresses, notes, payment methods, gateway transaction ids, payment URLs, tracking numbers, notifications, descriptions and timestamps of rows carry no rule modelled here.
- Webhook signatures, the lookup of a webhook's payment, HTTP handlers, caches, logging and tracing.
- Replica reads, listings for admins, users, wishlists, reviews, JWT, password hashing and the dashboard: no state shared with the cores.
- Shipment tracking updates: they move no order.
- Slugify is a parameter of the category service; the product counts Delete asks for are parameters.
- FallbackLimiter.FallbackLimiter.Allow: windows are map values, where the source's map holds pointers that nothing else shares.
- Paging.PagesListEveryRow: the text form of timestamps and ids is any one the database reads back and that writes no bar into a timestamp; the calendar arithmetic of the format is not modelled.
- SagaTheorems.StockAccounted: the sum of the holds and conservation are for runs without a cancel that commits the wrong restore; SagaTheorems.CarefulExactly is the exact condition and SagaStaleCancel.StaleCancelReleasesTwice the run that violates it.
- SagaTheorems.MovedAtMostOnce: that stock is restored at most once is for the same runs.
- Services.Charge: describes a charge between whose transactions only a competing insert commits; the theorems of SagaTheorems speak of every other interleaving.
- Category.Service.Update: validation and write are one step here; the source runs them as separate statements, and Category.RacingMovesExactly is what then happens.
