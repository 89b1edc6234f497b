/** What each transaction accomplishes in a reachable state, for every status of the rows it
    finds: which rows change, to what, and when nothing does. Statuses are named one by one. */
module SagaEffects {
  import opened OrderState
  import opened Inventory
  import opened Cart
  import opened Saga
  import opened SagaInvariant
  import opened SagaCore
  import opened SagaStock
  import P = Promotion

  /** The levels after the items of `row` were added to available, taken from reserved, both or
      neither. */
  ghost predicate Shifted(a: Levels, b: Levels, row: Order, toAvailable: bool, fromReserved: bool) {
    && b.Keys == a.Keys
    && forall p | p in a ::
         && b[p].available == a[p].available + (if toAvailable then Qty(row, p) else 0)
         && b[p].reserved == a[p].reserved - (if fromReserved then Qty(row, p) else 0)
  }

  /** `s1` differs from `s` in the tables of orders, payments, levels, coupons and jobs only. */
  predicate SameRest(s: State, s1: State) {
    s1.db.carts == s.db.carts && s1.db.shipments == s.db.shipments
  }

  /** Another payment of the order holds the one active place. */
  ghost predicate Clash(payments: map<PaymentId, Payment>, p: PaymentId, o: OrderId) {
    exists q | q in payments && q != p && payments[q].order == o ::
      payments[q].status.Pending? || payments[q].status.InProgress? || payments[q].status.RequiresReview?
  }

  lemma ClashMeans(payments: map<PaymentId, Payment>, p: PaymentId, o: OrderId)
    ensures OtherActive(payments, p, o) <==> Clash(payments, p, o)
  {
    if OtherActive(payments, p, o) {
      var q :| q in payments && q != p && payments[q].order == o && IsActive(payments[q].status);
    }
  }

  lemma NoClash(s: State, p: PaymentId)
    requires Core(s) && p in s.db.payments
    requires var st := s.db.payments[p].status; st.Pending? || st.InProgress? || st.RequiresReview?
    ensures !Clash(s.db.payments, p, s.db.payments[p].order)
  {
    hide OrderCore, CouponCore, DispatchOk, CartsOk, PaymentsOk, JobsOk, ClearedOk;
  }

  /** The row of `o` with a new status, its flags kept. */
  function Restatused(orders: map<OrderId, Order>, o: OrderId, st: Status): map<OrderId, Order>
    requires o in orders
  {
    orders[o := orders[o].(at := orders[o].at.(status := st))]
  }

  function Progressed(orders: map<OrderId, Order>, o: OrderId, at: Progress): map<OrderId, Order>
    requires o in orders
  {
    orders[o := orders[o].(at := at)]
  }

  // ---- batches ----

  lemma DeductShifts(s: State, row: Order)
    requires Holds(s.db.levels, QuantitiesOf(row.items))
    ensures Shifted(s.db.levels, Inventory.Deducted(s.db.levels, QuantitiesOf(row.items)), row, false, true)
  {
    hide QuantitiesOf;
  }

  lemma RestoreShifts(levels: Levels, row: Order, b: Restore)
    requires CanRestore(levels, QuantitiesOf(row.items), b)
    ensures Shifted(levels, Restored(levels, QuantitiesOf(row.items), b), row, !b.Skip?, b.Release?)
  {
    hide QuantitiesOf;
  }

  // ---- paying ----

  /** A captured payment of an order awaiting payment or being charged pays it: the payment
      succeeds, the order is paid, and its hold leaves the reserved stock. */
  lemma FinalizePays(s: State, p: PaymentId, o: OrderId)
    requires Core(s) && Stock(s) && p in s.db.payments && s.db.payments[p].order == o
    requires o in s.db.orders && (s.db.orders[o].at.status.AwaitingPayment? || s.db.orders[o].at.status.PaymentProcessing?)
    ensures FinalizeOutcome(s, p, o).Completed?
    ensures var s1 := Finalize(s, p, o);
            && s1.db.payments == s.db.payments[p := s.db.payments[p].(status := Success)]
            && s1.db.orders == Progressed(s.db.orders, o, Progress(Paid, true, false))
            && Shifted(s.db.levels, s1.db.levels, s.db.orders[o], false, true)
            && SameRest(s, s1) && s1.db.jobs == s.db.jobs && s1.db.promos == s.db.promos && s1.db.usages == s.db.usages
  {
    hide Core, Stock, QuantitiesOf, Holds, OtherActive, Inventory.Deducted, Shifted, RowsOk;
    PaymentAt(s, p);
    OrderAt(s, o);
    OwnHold(s, o);
    DeductShifts(s, s.db.orders[o]);
  }

  /** A captured payment of any other order is parked for review with a refund job, unless it is
      settled already or another payment holds the active place. */
  lemma FinalizeParks(s: State, p: PaymentId, o: OrderId)
    requires Core(s) && p in s.db.payments && s.db.payments[p].order == o && o in s.db.orders
    requires !s.db.orders[o].at.status.AwaitingPayment? && !s.db.orders[o].at.status.PaymentProcessing?
    ensures var s1, st, at := Finalize(s, p, o), s.db.payments[p].status, s.db.orders[o].at.status;
            if st.Success? || st.PaidBack? then FinalizeOutcome(s, p, o).AlreadyDone? && s1 == s
            else if Clash(s.db.payments, p, o) then FinalizeOutcome(s, p, o).Aborted? && s1 == s
            else
              && FinalizeOutcome(s, p, o).Parked?
              && s1.db.payments == s.db.payments[p := s.db.payments[p].(status := RequiresReview)]
              && s1.db.orders == (if at.Paid? || at.Cancelled? || at.Expired? then Restatused(s.db.orders, o, FulfillmentFailed)
                                  else s.db.orders)
              && s1.db.jobs == s.db.jobs + {Job(p, o)}
              && s1.db.levels == s.db.levels && s1.db.promos == s.db.promos && s1.db.usages == s.db.usages && SameRest(s, s1)
  {
    hide Core, QuantitiesOf, Holds, OtherActive, Inventory.Deducted, RowsOk;
    PaymentAt(s, p);
    OrderAt(s, o);
    ClashMeans(s.db.payments, p, o);
  }

  /** A payment that is missing, or whose amount or currency is not its order's total, is never
      finalized, in any state at all. */
  lemma FinalizeRefuses(s: State, p: PaymentId, o: OrderId)
    ensures p !in s.db.payments || o !in s.db.orders ==> FinalizeOutcome(s, p, o).Missing? && Finalize(s, p, o) == s
    ensures p in s.db.payments && o in s.db.orders &&
            (s.db.payments[p].amount.amount != s.db.orders[o].total.amount ||
             s.db.payments[p].amount.currency != s.db.orders[o].total.currency) ==>
              FinalizeOutcome(s, p, o).Mismatch? && Finalize(s, p, o) == s
  {
    hide QuantitiesOf, Holds, OtherActive, CanMarkPaid, Wins;
  }

  /** A compensation parks a pending or successful payment, fails the order unless it went
      further, and enqueues a refund; only another active payment rolls it back. */
  lemma CompensateExactly(s: State, p: PaymentId, o: OrderId)
    requires Core(s) && p in s.db.payments && s.db.payments[p].order == o && o in s.db.orders
    ensures var s1, st, at := Compensate(s, p, o), s.db.payments[p].status, s.db.orders[o].at.status;
            if (st.Pending? || st.Success?) && Clash(s.db.payments, p, o) then s1 == s
            else
              && s1.db.payments == (if st.Pending? || st.Success? then s.db.payments[p := s.db.payments[p].(status := RequiresReview)]
                                    else s.db.payments)
              && s1.db.orders == (if at.AwaitingPayment? || at.PaymentProcessing? || at.Paid? || at.Cancelled? || at.Expired?
                                  then Restatused(s.db.orders, o, FulfillmentFailed) else s.db.orders)
              && s1.db.jobs == s.db.jobs + {Job(p, o)}
              && s1.db.levels == s.db.levels && s1.db.promos == s.db.promos && s1.db.usages == s.db.usages && SameRest(s, s1)
  {
    hide Core, OtherActive;
    PaymentAt(s, p);
    ClashMeans(s.db.payments, p, o);
  }

  /** A free order is paid at once, or is no longer awaiting payment. */
  lemma FreeExactly(s: State, o: OrderId)
    requires Core(s) && Stock(s) && o in s.db.orders
    ensures var s1, at := FinalizeFree(s, o), s.db.orders[o].at.status;
            if at.AwaitingPayment? || at.PaymentProcessing? then
              && s1.db == s.db.(orders := Progressed(s.db.orders, o, Progress(Paid, true, false)), levels := s1.db.levels)
              && Shifted(s.db.levels, s1.db.levels, s.db.orders[o], false, true)
            else s1 == s
  {
    hide Core, Stock, QuantitiesOf, Holds, Inventory.Deducted, Shifted, RowsOk;
    OrderAt(s, o);
    OwnHold(s, o);
    if Wins(s.db.orders, o, ToPaid) {
      DeductShifts(s, s.db.orders[o]);
    }
  }

  // ---- reversing ----

  /** The coupon of `o` was given back: its usage row is gone and its coupon has one use less. */
  ghost predicate CouponBack(s: State, s1: State, o: OrderId) {
    && s1.db.usages == s.db.usages - {o}
    && s1.db.promos.Keys == s.db.promos.Keys
    && (forall c | c in s.db.promos ::
          s1.db.promos[c] == s.db.promos[c].(used := s.db.promos[c].used - if o in s.db.usages && s.db.usages[o].code == c then 1 else 0))
  }

  /** The order is reversed to `st`: its stock goes back to available, out of reserved or of what
      was deducted, and so does its coupon; nothing else changes. */
  ghost predicate Undone(s: State, s1: State, o: OrderId, st: Status, back: bool) {
    && o in s.db.orders
    && var at := s.db.orders[o].at;
    && s1.db.orders == Progressed(s.db.orders, o, Progress(st, at.deducted, true))
    && Shifted(s.db.levels, s1.db.levels, s.db.orders[o], back, back && !at.deducted)
    && CouponBack(s, s1, o) && SameRest(s, s1)
  }

  lemma CouponReturned(s: State, o: OrderId)
    requires Core(s) && o in s.db.orders
    ensures CouponBack(s, s.(db := ReleaseCoupon(s.db, o)), o)
    ensures s.db.orders[o].coupon.None? ==> o !in s.db.usages && CouponBack(s, s, o)
  {
    hide OrderCore, PayCore, DispatchOk, CartsOk;
    P.ReleaseCounts(s.db.promos, s.db.usages, o);
    assert o !in s.db.usages ==> s.db.usages - {o} == s.db.usages;
  }

  lemma ReverseUndoes(s: State, o: OrderId, r: Order, t: Transition)
    requires Core(s) && Stock(s) && Wins(s.db.orders, o, t) && (t.ToCancelled? || t.ToExpired?)
    requires r.at.deducted == s.db.orders[o].at.deducted && r.at.reversed == s.db.orders[o].at.reversed
    requires r.coupon == s.db.orders[o].coupon
    ensures Undone(s, Reverse(s, o, r, t), o, t.To(), !s.db.orders[o].at.reversed)
    ensures Reverse(s, o, r, t).db.payments == s.db.payments && Reverse(s, o, r, t).db.jobs == s.db.jobs
  {
    hide Core, Stock, QuantitiesOf, CanRestore, Restored, Shifted, CouponBack, RowsOk, P.ReleasedPromos, P.ReleasedUsages;
    var row := s.db.orders[o];
    OrderAt(s, o);
    OwnHold(s, o);
    RestoreShifts(s.db.levels, row, RestoreFor(row.items, row.at));
    CouponReturned(s, o);
    CouponsAlone(s, Reverse(s, o, r, t), o);
  }

  /** CouponBack reads the coupon tables only. */
  lemma CouponsAlone(s: State, s1: State, o: OrderId)
    ensures s1.db.promos == s.db.promos && s1.db.usages == s.db.usages ==> (CouponBack(s, s1, o) <==> CouponBack(s, s, o))
    ensures s1.db.promos == P.ReleasedPromos(s.db.promos, s.db.usages, o) && s1.db.usages == P.ReleasedUsages(s.db.usages, o) ==>
              (CouponBack(s, s1, o) <==> CouponBack(s, s.(db := ReleaseCoupon(s.db, o)), o))
  {
  }

  /** Expiry acts on an awaiting order and on no other, not even one being charged, however long
      ago it was listed. */
  lemma ExpireExactly(s: State, o: OrderId, r: Order)
    requires Core(s) && Stock(s) && Snap(o, r) in s.h.snaps && o in s.db.orders
    ensures var s1 := Reverse(s, o, r, ToExpired);
            if s.db.orders[o].at.status.AwaitingPayment? then
              Undone(s, s1, o, Expired, true) && s1.db.payments == s.db.payments && s1.db.jobs == s.db.jobs
            else s1 == s
  {
    hide Core, Stock, QuantitiesOf, RowsOk, Undone, RestoreFor, CanRestore, Restored;
    SnapAt(s, o, r);
    OrderAt(s, o);
    if s.db.orders[o].at.status.AwaitingPayment? {
      PayableRowsAreFresh(s, o, r, ToExpired);
      ReverseUndoes(s, o, r, ToExpired);
    }
  }

  /** A cancel of the row as it is, or of an unpaid order on any row read earlier, cancels an
      unpaid or failed order and changes nothing otherwise. */
  lemma CancelExactly(s: State, o: OrderId, r: Order)
    requires Core(s) && Stock(s) && Snap(o, r) in s.h.snaps && o in s.db.orders
    requires s.db.orders[o].at.status.FulfillmentFailed? ==> r == s.db.orders[o]
    ensures var s1, at := Reverse(s, o, r, ToCancelled), s.db.orders[o].at;
            if at.status.AwaitingPayment? || at.status.PaymentProcessing? || at.status.FulfillmentFailed? then
              Undone(s, s1, o, Cancelled, !at.reversed) && s1.db.payments == s.db.payments && s1.db.jobs == s.db.jobs
            else s1 == s
  {
    hide Core, Stock, QuantitiesOf, RowsOk, Undone, RestoreFor, CanRestore, Restored;
    SnapAt(s, o, r);
    OrderAt(s, o);
    var at := s.db.orders[o].at.status;
    if at.AwaitingPayment? || at.PaymentProcessing? {
      PayableRowsAreFresh(s, o, r, ToCancelled);
    }
    if at.AwaitingPayment? || at.PaymentProcessing? || at.FulfillmentFailed? {
      ReverseUndoes(s, o, r, ToCancelled);
    }
  }

  /** The payment is refunded. A paid, processing or failed order gave its stock back unless it
      had already; a shipped or delivered one keeps what it took; one that was reversed without
      it stayed as it was. */
  ghost predicate RefundMade(s: State, s1: State, p: PaymentId, o: OrderId) {
    && p in s.db.payments && o in s.db.orders
    && s1.db.payments == s.db.payments[p := s.db.payments[p].(status := PaidBack)] && s1.db.jobs == s.db.jobs
    && var at := s.db.orders[o].at;
       if at.status.Paid? || at.status.Processing? || at.status.FulfillmentFailed? then
         Undone(s, s1, o, Refunded, !at.reversed)
       else if at.status.Shipped? || at.status.Delivered? then Undone(s, s1, o, Refunded, false)
       else at.reversed && s1.db == s.db.(payments := s1.db.payments)
  }

  /** What a settle of a payment that passed the refundable check does, however long ago. */
  lemma SettleExactly(s: State, p: PaymentId, o: OrderId)
    requires Core(s) && Stock(s) && Job(p, o) in s.db.jobs && p in s.h.cleared
    ensures RefundMade(s, Settle(s, p, o), p, o)
  {
    hide Core, Stock, QuantitiesOf, CanRestore, Restored, SettleRestore, Shifted, CouponBack, RowsOk, Undone, SetStatus, Wins, Cas,
      OtherActive, P.ReleasedPromos, P.ReleasedUsages;
    JobAt(s, p, o);
    PaymentAt(s, p);
    SettleStock(s, p, o);
    SettleParts(s, p, o);
    SettlePays(s, p, o);
    SettleOrders(s, p, o);
    SettleRestores(s, o);
    var row := s.db.orders[o];
    RestoreShifts(s.db.levels, row, SettleRestore(row));
    SettleCoupons(s, p, o);
    Gather(s, Settle(s, p, o), o);
  }

  lemma SettleParts(s: State, p: PaymentId, o: OrderId)
    requires o in s.db.orders && p in s.db.payments
    ensures var s1, row := Settle(s, p, o), s.db.orders[o];
            && s1.db.orders == Cas(s.db.orders, o, ToRefunded)
            && s1.db.levels == Restored(s.db.levels, QuantitiesOf(row.items), SettleRestore(row))
            && s1.db.jobs == s.db.jobs && SameRest(s, s1)
            && s1.db.promos == (if row.coupon.Some? then P.ReleasedPromos(s.db.promos, s.db.usages, o) else s.db.promos)
            && s1.db.usages == (if row.coupon.Some? then P.ReleasedUsages(s.db.usages, o) else s.db.usages)
  {
    hide QuantitiesOf, CanRestore, Restored, SettleRestore, Cas, Tally, SetStatus, IsRefundable, P.ReleasedPromos, P.ReleasedUsages;
  }

  lemma SettlePays(s: State, p: PaymentId, o: OrderId)
    requires o in s.db.orders && p in s.db.payments
    requires s.db.payments[p].status.Success? || s.db.payments[p].status.RequiresReview? || s.db.payments[p].status.PaidBack?
    ensures Settle(s, p, o).db.payments == s.db.payments[p := s.db.payments[p].(status := PaidBack)]
  {
    hide QuantitiesOf, CanRestore, Restored, SettleRestore, Cas, Tally, P.ReleasedPromos, P.ReleasedUsages;
  }

  lemma SettleOrders(s: State, p: PaymentId, o: OrderId)
    requires Core(s) && o in s.db.orders && Job(p, o) in s.db.jobs && p in s.h.cleared
    ensures var at := s.db.orders[o].at;
            if at.status.Paid? || at.status.Processing? || at.status.FulfillmentFailed? || at.status.Shipped? || at.status.Delivered?
            then Cas(s.db.orders, o, ToRefunded) == Progressed(s.db.orders, o, Progress(Refunded, at.deducted, true))
            else Cas(s.db.orders, o, ToRefunded) == s.db.orders && at.reversed
  {
    hide Core, RowsOk;
    SettleFindsSettled(s, p, o);
    OrderAt(s, o);
  }

  lemma SettleRestores(s: State, o: OrderId)
    requires Core(s) && o in s.db.orders
    ensures var at, b := s.db.orders[o].at, SettleRestore(s.db.orders[o]);
            b == if at.status.Shipped? || at.status.Delivered? || at.reversed then Skip else if at.deducted then Restock else Release
  {
    hide Core, RowsOk;
    OrderAt(s, o);
  }

  lemma SettleCoupons(s: State, p: PaymentId, o: OrderId)
    requires Core(s) && o in s.db.orders && p in s.db.payments
    ensures CouponBack(s, Settle(s, p, o), o)
    ensures s.db.orders[o].at.reversed ==>
              Settle(s, p, o).db.promos == s.db.promos && Settle(s, p, o).db.usages == s.db.usages
  {
    hide OrderCore, PayCore, DispatchOk, CartsOk, P.Counted, CouponBack, QuantitiesOf, Settle;
    SettleParts(s, p, o);
    CouponReturned(s, o);
    CouponsAlone(s, Settle(s, p, o), o);
    assert o !in s.db.usages ==> s.db.usages - {o} == s.db.usages;
  }

  lemma Gather(s: State, s1: State, o: OrderId)
    requires o in s.db.orders && CouponBack(s, s1, o) && SameRest(s, s1)
    ensures forall st, back: bool |
              var at := s.db.orders[o].at;
              && s1.db.orders == Progressed(s.db.orders, o, Progress(st, at.deducted, true))
              && Shifted(s.db.levels, s1.db.levels, s.db.orders[o], back, back && !at.deducted) :: Undone(s, s1, o, st, back)
    ensures Restored(s.db.levels, QuantitiesOf(s.db.orders[o].items), Skip) == s.db.levels
  {
    hide Shifted, CouponBack, QuantitiesOf;
  }

  // ---- moves without stock ----

  /** The claim of a payment attempt, its release and the direct status changes: which status
      each asks for and which it gives, flags and every other table kept. */
  lemma AdvanceExactly(s: State, o: OrderId, t: Transition)
    requires Plain(t) && o in s.db.orders
    ensures var at := s.db.orders[o].at.status;
            Advance(s, o, t).db == s.db.(orders :=
              if t.ToAwaitingPayment? && at.PaymentProcessing? then Restatused(s.db.orders, o, AwaitingPayment)
              else if t.ToPaymentAttempt? && at.AwaitingPayment? then Restatused(s.db.orders, o, PaymentProcessing)
              else if t.ToPaymentProcessing? && (at.AwaitingPayment? || at.PaymentProcessing?) then Restatused(s.db.orders, o, PaymentProcessing)
              else if t.ToProcessing? && at.Paid? then Restatused(s.db.orders, o, Processing)
              else if t.ToShipped? && (at.Paid? || at.Processing?) then Restatused(s.db.orders, o, Shipped)
              else if t.ToDelivered? && at.Shipped? then Restatused(s.db.orders, o, Delivered)
              else s.db.orders)
  {
  }

  /** A shipment is made for a paid or processing order that has none, and the order is shipped. */
  lemma ShipExactly(s: State, o: OrderId)
    requires o in s.db.orders
    ensures var at := s.db.orders[o].at.status;
            if o !in s.db.shipments && (at.Paid? || at.Processing?) then
              Ship(s, o).db == s.db.(orders := Restatused(s.db.orders, o, Shipped), shipments := s.db.shipments[o := InTransit])
            else Ship(s, o) == s
  {
  }

  /** A delivery marks the shipment and the order, when the order is shipped. */
  lemma DeliverExactly(s: State, o: OrderId)
    requires o in s.db.orders
    ensures if o in s.db.shipments && s.db.orders[o].at.status.Shipped? then
              Deliver(s, o).db == s.db.(orders := Restatused(s.db.orders, o, Delivered), shipments := s.db.shipments[o := Arrived])
            else Deliver(s, o) == s
  {
  }

  // ---- payments and jobs ----

  /** A charge inserts a pending payment of the order's total unless one is active. */
  lemma CreateExactly(s: State, p: PaymentId, o: OrderId, row: Order)
    requires Core(s) && Snap(o, row) in s.h.snaps && p !in s.db.payments
    ensures o in s.db.orders
    ensures CreatePayment(s, p, o, row.total) ==
            if Clash(s.db.payments, p, o) then s
            else s.(db := s.db.(payments := s.db.payments[p := Payment(o, s.db.orders[o].total, Pending)]))
  {
    hide Core, OtherActive;
    SnapAt(s, o, row);
    ClashMeans(s.db.payments, p, o);
  }

  /** A failed event drops a pending payment and no other. */
  lemma DropExactly(s: State, p: PaymentId)
    requires Core(s) && p in s.db.payments
    ensures DropPayment(s, p) ==
            if s.db.payments[p].status.Pending? then
              s.(db := s.db.(payments := s.db.payments[p := s.db.payments[p].(status := Dropped)]))
            else s
  {
    hide Core;
    PaymentAt(s, p);
  }

  /** An admin refund enqueues a job for a successful or parked payment and for no other. */
  lemma RequestExactly(s: State, p: PaymentId)
    requires p in s.db.payments
    ensures RequestRefund(s, p) ==
            if s.db.payments[p].status.Success? || s.db.payments[p].status.RequiresReview? then
              s.(db := s.db.(jobs := s.db.jobs + {Job(p, s.db.payments[p].order)}))
            else s
  {
  }

  // ---- stock keeping ----

  /** Setting the units on hand of a product keeps what is reserved, and is refused below it. */
  lemma AdjustExactly(s: State, p: ProductId, n: int)
    ensures var levels, reserved := Adjust(s, p, n).db.levels, if p in s.db.levels then s.db.levels[p].reserved else 0;
            if n < reserved then Adjust(s, p, n) == s
            else
              && p in levels && levels[p].available + levels[p].reserved == n && levels[p].reserved == reserved
              && Adjust(s, p, n).db == s.db.(levels := s.db.levels[p := levels[p]])
  {
  }

  lemma TopUpExactly(s: State, p: ProductId, qty: int)
    ensures var levels := TopUp(s, p, qty).db.levels;
            if p in s.db.levels && s.db.levels[p].available + qty >= 0 then
              && p in levels && levels[p].available - s.db.levels[p].available == qty && levels[p].reserved == s.db.levels[p].reserved
              && TopUp(s, p, qty).db == s.db.(levels := s.db.levels[p := levels[p]])
            else TopUp(s, p, qty) == s
  {
  }

  lemma EnsureExactly(s: State, p: ProductId)
    ensures if p in s.db.levels then EnsureLevel(s, p) == s
            else EnsureLevel(s, p).db == s.db.(levels := s.db.levels[p := Level(0, 0)])
  {
  }

  /** Editing a promotion never writes its use count, and a new one starts at none. */
  lemma EditPromoExactly(s: State, code: P.Code, promo: P.Promo)
    ensures var s1 := EditPromo(s, code, promo);
            && code in s1.db.promos && s1.db == s.db.(promos := s.db.promos[code := s1.db.promos[code]])
            && s1.db.promos[code].(used := promo.used) == promo
            && s1.db.promos[code].used == if code in s.db.promos then s.db.promos[code].used else 0
  {
  }
}
