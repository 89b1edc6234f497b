/** What the runs of the saga guarantee. */
module SagaTheorems {
  import opened Common
  import opened OrderState
  import opened Inventory
  import opened Cart
  import opened Saga
  import opened SagaInvariant
  import opened SagaCore
  import opened SagaStock
  import opened SagaPlace
  import opened SagaRuns
  import opened SagaLedger
  import opened SagaEffects
  import opened Sums
  import P = Promotion

  // ---- stock ----

  /** No quantity is ever negative. In careful runs reserved stock is exactly what undeducted,
      unreversed orders hold, and units are conserved. */
  lemma StockAccounted(es: seq<Step>, p: ProductId)
    requires Legal(EMPTY, es) && p in Run(EMPTY, es).db.levels
    ensures Run(EMPTY, es).db.levels[p].available >= 0 && Run(EMPTY, es).db.levels[p].reserved >= 0
    ensures AllCareful(EMPTY, es) ==>
              var s := Run(EMPTY, es);
              && s.db.levels[p].reserved == Sum(Held(s.db.orders, p))
              && s.db.levels[p].available + s.db.levels[p].reserved == Stocked(s.h, p) - Sum(Gone(s, p))
  {
    hide Core, Run, Legal, AllCareful, Ledger, LedgerOk, StockedOk;
    LedgerAlways(es);
    if AllCareful(EMPTY, es) {
      StockAlways(es);
      assert LevelOk(Run(EMPTY, es), p);
    }
  }

  /** A run keeps stock and ledger right at every moment if and only if its cancels are careful. */
  lemma {:induction false} CarefulExactly(es: seq<Step>)
    requires Legal(EMPTY, es)
    ensures AllCareful(EMPTY, es) <==> forall k | 0 <= k <= |es| :: Stock(Run(EMPTY, es[..k]))
    decreases |es|
  {
    hide Core, Stock, Next, Enabled, Careful;
    assert es[..|es|] == es;
    if es == [] {
      EmptyInv();
    } else {
      var before := es[..|es| - 1];
      CarefulExactly(before);
      CoreAlways(before);
      forall k | 0 <= k <= |before| ensures es[..k] == before[..k] {
      }
      assert before[..|before|] == before;
      if Stock(Run(EMPTY, before)) {
        StepStock(Run(EMPTY, before), es[|es| - 1]);
      }
    }
  }

  /** Cancelling an order right after placing it gives back every level and every coupon use. */
  lemma CancelUndoesPlace(es: seq<Step>, c: Checkout, o: OrderId)
    requires Legal(EMPTY, es) && o !in Run(EMPTY, es).db.orders && DraftOf(Run(EMPTY, es).db, c, o).Ok?
    ensures var s := Run(EMPTY, es);
            var placed := Place(s, c, o);
            var undone := Reverse(placed, o, placed.db.orders[o], ToCancelled);
            && undone.db.levels == s.db.levels && undone.db.promos == s.db.promos && undone.db.usages == s.db.usages
            && undone.db.orders == s.db.orders[o := placed.db.orders[o].(at := Progress(Cancelled, false, true))]
  {
    hide Core, Run, Legal, Ledger, DraftOf, QuantitiesOf, Reserved, Released;
    var s := Run(EMPTY, es);
    CoreAlways(es);
    LedgerAlways(es);
    PlaceUndone(s, c, o);
  }

  lemma PlaceUndone(s: State, c: Checkout, o: OrderId)
    requires Core(s) && NonNegative(s.db.levels) && o !in s.db.orders && DraftOf(s.db, c, o).Ok?
    ensures var placed := Place(s, c, o);
            var undone := Reverse(placed, o, placed.db.orders[o], ToCancelled);
            && undone.db.levels == s.db.levels && undone.db.promos == s.db.promos && undone.db.usages == s.db.usages
            && undone.db.orders == s.db.orders[o := placed.db.orders[o].(at := Progress(Cancelled, false, true))]
  {
    hide Core, DraftOf, QuantitiesOf, Reserved, Released, Holds, CanReserve, ItemsOf, Snapshot, Total, SumOfSubtotals,
      NonNegative, P.ReleasedPromos, P.ReleasedUsages;
    DraftMeans(s.db, c, o);
    CoreDispatch(s, o);
    HoldUndone(s.db.levels, QuantitiesOf(DraftOf(s.db, c, o).value.row.items));
    CouponUndone(s, c, o);
    DraftStocked(s, c, o);
  }

  lemma HoldUndone(levels: Levels, q: Quantities)
    requires NonNegative(levels) && CanReserve(levels, q)
    ensures CanRestore(Reserved(levels, q), q, Release) && Restored(Reserved(levels, q), q, Release) == levels
  {
    ReleaseUndoesReserve(levels, q);
  }

  lemma DraftStocked(s: State, c: Checkout, o: OrderId)
    requires Core(s) && DraftOf(s.db, c, o).Ok?
    ensures DraftOf(s.db, c, o).value.row.items != []
  {
    hide OrderCore, PayCore, CouponCore, DispatchOk, DraftOf;
    DraftItems(s.db, c, o);
  }

  lemma CouponUndone(s: State, c: Checkout, o: OrderId)
    requires DraftOf(s.db, c, o).Ok? && o !in s.db.orders && o !in s.db.usages
    requires Core(s)
    ensures var d := DraftOf(s.db, c, o).value;
            if c.coupon.Some? then
              P.ReleasedPromos(d.promos, d.usages, o) == s.db.promos && P.ReleasedUsages(d.usages, o) == s.db.usages
            else d.promos == s.db.promos && d.usages == s.db.usages
  {
    hide OrderCore, PayCore, DispatchOk, CartsOk, QuantitiesOf, CanReserve, Priced, Snapshot, ItemsOf;
  }

  /** An order's stock is deducted at most once, exactly when its flag says so; a restock follows
      a deduction, and nothing is restored before the order is reversed or once it was shipped.
      In careful runs it is restored at most once, and always when reversed before shipping: by a
      restock after a deduction, by a release otherwise. */
  lemma MovedAtMostOnce(es: seq<Step>, o: OrderId)
    requires Legal(EMPTY, es) && o in Run(EMPTY, es).db.orders
    ensures var s := Run(EMPTY, es);
            var at := s.db.orders[o].at;
            var deducts, releases, restocks := Count(s.h.deducts, o), Count(s.h.releases, o), Count(s.h.restocks, o);
            && deducts == (if at.deducted then 1 else 0)
            && (restocks > 0 ==> deducts == 1)
            && (!at.reversed || o in s.h.dispatched ==> releases == restocks == 0)
    ensures AllCareful(EMPTY, es) ==>
              var s := Run(EMPTY, es);
              var at := s.db.orders[o].at;
              Count(s.h.releases, o) + Count(s.h.restocks, o) == (if at.reversed && o !in s.h.dispatched then 1 else 0) &&
              (Count(s.h.releases, o) > 0 ==> Count(s.h.deducts, o) == 0)
  {
    hide Core, Run, Legal, AllCareful, Stock, NonNegative;
    LedgerAlways(es);
    assert CountsOk(Run(EMPTY, es), o);
    if AllCareful(EMPTY, es) {
      StockAlways(es);
      LedgerAt(Run(EMPTY, es), o);
      DispatchAt(Run(EMPTY, es), o);
    }
  }

  // ---- what later states keep ----

  ghost predicate OrdersForward(a: map<OrderId, Order>, b: map<OrderId, Order>) {
    forall o | o in a :: o in b && Evolves(a[o], b[o])
  }

  /** A captured payment stays captured, a refunded one stays refunded. */
  ghost predicate PaymentsForward(a: map<PaymentId, Payment>, b: map<PaymentId, Payment>) {
    forall p | p in a ::
      && p in b && b[p].order == a[p].order && b[p].amount == a[p].amount
      && (IsCaptured(a[p].status) ==> IsCaptured(b[p].status))
      && (a[p].status.PaidBack? ==> b[p].status.PaidBack?)
  }

  predicate MovesOrder(e: Step) {
    e.DoPlace? || e.DoFinalizeFree? || e.DoAdvance? || e.DoCancel? || e.DoExpire? || e.DoFinalize? || e.DoCompensate? ||
    e.DoSettle? || e.DoShip? || e.DoDeliver?
  }

  lemma OrdersUntouched(s: State, e: Step)
    requires !MovesOrder(e)
    ensures Next(s, e).db.orders == s.db.orders
  {
    hide OtherActive, SetStatus, IsRefundable, CanAdjust, CanTopUp, Adjusted, ToppedUp;
  }

  lemma PaymentStepsForward(s: State, e: Step)
    requires RowsOk(s.db.orders) && (e.DoFinalize? || e.DoCompensate? || e.DoSettle?)
    ensures OrdersForward(s.db.orders, Next(s, e).db.orders)
  {
    hide RowsOk, Cas, Evolves, OrdersForward, CanRestore, Restored, Inventory.Deducted, QuantitiesOf, OtherActive, FinalizeOutcome,
      IsRefundable, CanMarkPaid, SettleRestore, P.ReleasedPromos, P.ReleasedUsages, Wins, Tally, SetStatus;
    Reflexive(s.db.orders);
    match e
    case DoFinalize(p, o) => CasForward(s.db.orders, o, ToPaid); CasForward(s.db.orders, o, ToFulfillmentFailedAfterCharge);
    case DoCompensate(p, o) => CasForward(s.db.orders, o, ToFulfillmentFailedCompensating);
    case DoSettle(p, o) => CasForward(s.db.orders, o, ToRefunded);
  }

  lemma StepOrdersForward(s: State, e: Step)
    requires Core(s) && Enabled(s, e)
    ensures OrdersForward(s.db.orders, Next(s, e).db.orders)
  {
    hide Core, RowsOk, Cas, Evolves, OrdersForward, Place, Holds, CanRestore, Restored, Inventory.Deducted, QuantitiesOf,
      RestoreFor, P.ReleasedPromos, P.ReleasedUsages, Wins, Tally, Finalize, Compensate, Settle,
      ReadOrder, CreatePayment, DropPayment, RequestRefund, Clear, Adjust, TopUp, EnsureLevel, EditCart, EditPromo;
    RowsAt(s);
    Reflexive(s.db.orders);
    if !MovesOrder(e) {
      OrdersUntouched(s, e);
      return;
    }
    match e
    case DoPlace(c, o) => PlaceForward(s, c, o);
    case DoFinalizeFree(o) => CasForward(s.db.orders, o, ToPaid);
    case DoAdvance(o, t) => CasForward(s.db.orders, o, t);
    case DoCancel(o, row) => CasForward(s.db.orders, o, ToCancelled);
    case DoExpire(o, row) => CasForward(s.db.orders, o, ToExpired);
    case DoShip(o) => CasForward(s.db.orders, o, ToShipped);
    case DoDeliver(o) => CasForward(s.db.orders, o, ToDelivered);
    case _ => PaymentStepsForward(s, e);
  }

  lemma PlaceForward(s: State, c: Checkout, o: OrderId)
    requires o !in s.db.orders
    ensures OrdersForward(s.db.orders, Place(s, c, o).db.orders)
  {
    hide DraftOf;
  }

  lemma Reflexive(orders: map<OrderId, Order>)
    ensures OrdersForward(orders, orders)
  {
  }

  lemma CasForward(orders: map<OrderId, Order>, o: OrderId, t: Transition)
    requires RowsOk(orders)
    ensures OrdersForward(orders, Cas(orders, o, t))
  {
    hide RowsOk, Evolves;
    CasEvolves(orders, o, t);
  }

  lemma StatusForward(s: State, p: PaymentId, st: PaymentStatus)
    requires p in s.db.payments
    requires IsCaptured(s.db.payments[p].status) ==> IsCaptured(st)
    requires s.db.payments[p].status.PaidBack? ==> st.PaidBack?
    ensures PaymentsForward(s.db.payments, SetStatus(s.db.payments, p, st))
  {
  }

  lemma SameForward(payments: map<PaymentId, Payment>, p: PaymentId, pay: Payment)
    ensures PaymentsForward(payments, payments)
    ensures p !in payments ==> PaymentsForward(payments, payments[p := pay])
  {
  }

  predicate MovesPayment(e: Step) {
    e.DoFinalize? || e.DoCreatePayment? || e.DoCompensate? || e.DoDropPayment? || e.DoSettle?
  }

  lemma PaymentsUntouched(s: State, e: Step)
    requires !MovesPayment(e)
    ensures Next(s, e).db.payments == s.db.payments
  {
    hide Cas, DraftOf, Holds, CanRestore, Restored, Inventory.Deducted, QuantitiesOf, RestoreFor, P.ReleasedPromos,
      P.ReleasedUsages, Wins, CanAdjust, CanTopUp, Tally, SetStatus, IsRefundable;
  }

  lemma StepPaymentsForward(s: State, e: Step)
    requires Core(s) && Enabled(s, e)
    ensures PaymentsForward(s.db.payments, Next(s, e).db.payments)
  {
    hide Core, Cas, CanRestore, Restored, QuantitiesOf, OtherActive, PaymentsForward, SettleRestore, Tally, SetStatus,
      P.ReleasedPromos, P.ReleasedUsages,
      Finalize, Place, FinalizeFree, ReadOrder, Advance, Reverse, RequestRefund, Clear, Ship, Deliver, Adjust, TopUp,
      EnsureLevel, EditCart, EditPromo;
    SameForward(s.db.payments, 0, Payment(0, Money(0, ""), Pending));
    if !MovesPayment(e) {
      PaymentsUntouched(s, e);
      return;
    }
    match e
    case DoFinalize(p, o) => FinalizePayments(s, p, o);
    case DoCreatePayment(p, o, row) => SameForward(s.db.payments, p, Payment(o, row.total, Pending));
    case DoCompensate(p, o) => PaymentAt(s, p); if !s.db.payments[p].status.PaidBack? { StatusForward(s, p, RequiresReview); }
    case DoDropPayment(p) => if DropPayment(s, p) != s { StatusForward(s, p, Dropped); }
    case DoSettle(p, o) => if p in s.db.payments { StatusForward(s, p, PaidBack); }
    case _ =>
  }

  lemma FinalizePayments(s: State, p: PaymentId, o: OrderId)
    requires Core(s) && p in s.db.payments && s.db.payments[p].order == o
    ensures PaymentsForward(s.db.payments, Finalize(s, p, o).db.payments)
  {
    hide Core, Cas, Holds, Inventory.Deducted, QuantitiesOf, OtherActive;
    FinalizeClassified(s, p, o);
    PaymentAt(s, p);
  }

  lemma {:induction false} RunForward(s: State, es: seq<Step>)
    requires Core(s) && Legal(s, es)
    ensures Core(Run(s, es))
    ensures OrdersForward(s.db.orders, Run(s, es).db.orders)
    ensures PaymentsForward(s.db.payments, Run(s, es).db.payments)
    decreases |es|
  {
    hide Core, Next, Enabled;
    if es != [] {
      var mid := Run(s, es[..|es| - 1]);
      RunForward(s, es[..|es| - 1]);
      StepCore(mid, es[|es| - 1]);
      StepOrdersForward(mid, es[|es| - 1]);
      StepPaymentsForward(mid, es[|es| - 1]);
    }
  }

  // ---- payments ----

  /** Once funds are captured the order has left the payable states for good. */
  lemma CapturedForGood(s: State, es: seq<Step>, p: PaymentId)
    requires Core(s) && Legal(s, es) && p in s.db.payments
    requires s.db.payments[p].status.Success? || s.db.payments[p].status.RequiresReview? || s.db.payments[p].status.PaidBack?
    ensures var s1, o := Run(s, es), s.db.payments[p].order;
            && p in s1.db.payments
            && (s1.db.payments[p].status.Success? || s1.db.payments[p].status.RequiresReview? || s1.db.payments[p].status.PaidBack?)
            && o in s.db.orders && o in s1.db.orders
            && !s.db.orders[o].at.status.AwaitingPayment? && !s.db.orders[o].at.status.PaymentProcessing?
            && !s1.db.orders[o].at.status.AwaitingPayment? && !s1.db.orders[o].at.status.PaymentProcessing?
  {
    hide Core, Run, Legal;
    PaymentAt(s, p);
    RunForward(s, es);
    PaymentAt(Run(s, es), p);
  }

  /** At most one payment of an order is ever successful, and a payment's amount is its order's
      total, which never changes. */
  lemma OneSuccessRightAmount(es: seq<Step>, later: seq<Step>, p: PaymentId)
    requires Legal(EMPTY, es) && Legal(Run(EMPTY, es), later) && p in Run(EMPTY, es).db.payments
    ensures var s, s1 := Run(EMPTY, es), Run(Run(EMPTY, es), later);
            var o := s.db.payments[p].order;
            && p in s1.db.payments && s1.db.payments[p].order == o && o in s.db.orders && o in s1.db.orders
            && s1.db.payments[p].amount == s1.db.orders[o].total == s.db.orders[o].total
            && (s1.db.payments[p].status.Success? ==>
                  forall q | q in s1.db.payments && q != p && s1.db.payments[q].order == o :: !s1.db.payments[q].status.Success?)
  {
    hide Core, Run, Legal;
    CoreAlways(es);
    var s := Run(EMPTY, es);
    RunForward(s, later);
    PaymentAt(s, p);
    PaymentAt(Run(s, later), p);
    if Run(s, later).db.payments[p].status.Success? {
      OnlyOne(Run(s, later), p);
    }
  }

  /** At most one payment of an order is pending, in progress or under review. */
  lemma OneActive(es: seq<Step>, p: PaymentId)
    requires Legal(EMPTY, es) && p in Run(EMPTY, es).db.payments
    requires var st := Run(EMPTY, es).db.payments[p].status; st.Pending? || st.InProgress? || st.RequiresReview?
    ensures !Clash(Run(EMPTY, es).db.payments, p, Run(EMPTY, es).db.payments[p].order)
  {
    hide Core, Run, Legal;
    CoreAlways(es);
    NoClash(Run(EMPTY, es), p);
  }

  lemma OnlyOne(s: State, p: PaymentId)
    requires Core(s) && p in s.db.payments && s.db.payments[p].status.Success?
    ensures forall q | q in s.db.payments && q != p && s.db.payments[q].order == s.db.payments[p].order :: !s.db.payments[q].status.Success?
  {
    hide OrderCore, CouponCore, DispatchOk, CartsOk, PaymentsOk, JobsOk, ClearedOk;
  }

  /** A finalization either has nothing left to do, or pays the order and deducts its stock for
      the first time, or parks the payment on an order that is no longer payable, or is rolled
      back. It never finds the amounts different and never moves an order without its payment;
      in careful runs it is never refused stock, so only the unique index on active payments can
      roll it back. */
  lemma FinalizeAlwaysClean(es: seq<Step>, p: PaymentId)
    requires Legal(EMPTY, es) && p in Run(EMPTY, es).db.payments
    ensures var s := Run(EMPTY, es);
            var o := s.db.payments[p].order;
            var s1 := Finalize(s, p, o);
            && (s1 == s ||
                (s1.db.payments[p].status.Success? && s1.db.orders[o].at == Progress(Paid, true, false) &&
                 Count(s1.h.deducts, o) == 1) ||
                (s1.db.payments[p].status.RequiresReview? && !Payable(s1.db.orders[o].at.status) && Job(p, o) in s1.db.jobs))
            && FinalizeOutcome(s, p, o) in {AlreadyDone, Completed, Parked, Aborted, Refused}
    ensures AllCareful(EMPTY, es) ==>
              !FinalizeOutcome(Run(EMPTY, es), p, Run(EMPTY, es).db.payments[p].order).Refused?
  {
    hide Core, Stock, Run, Legal, AllCareful, Finalize, FinalizeOutcome, NonNegative;
    CoreAlways(es);
    LedgerAlways(es);
    var s := Run(EMPTY, es);
    var o := s.db.payments[p].order;
    FinalizeClassified(s, p, o);
    if FinalizeOutcome(s, p, o).Completed? {
      PaymentAt(s, p);
      DeductsOnce(s, p, o);
    }
    if AllCareful(EMPTY, es) {
      StockAlways(es);
      FinalizeStock(s, p, o);
    }
  }

  lemma DeductsOnce(s: State, p: PaymentId, o: OrderId)
    requires Core(s) && Ledger(s) && o in s.db.orders && FinalizeOutcome(s, p, o).Completed?
    ensures Count(s.h.deducts, o) == 0
  {
    hide Core, Holds, QuantitiesOf, OtherActive;
    OrderAt(s, o);
    assert CountsOk(s, o);
  }

  /** A captured payment always takes effect: in careful runs it pays an order that is awaiting
      payment or being charged, and in all runs it is parked with a refund job on any other order,
      unless it was settled before or another payment is active. */
  lemma FinalizeTakesEffect(es: seq<Step>, p: PaymentId, o: OrderId)
    requires Legal(EMPTY, es) && p in Run(EMPTY, es).db.payments && Run(EMPTY, es).db.payments[p].order == o
    ensures o in Run(EMPTY, es).db.orders
    ensures var s := Run(EMPTY, es);
            var s1, st, at := Finalize(s, p, o), s.db.payments[p].status, s.db.orders[o].at.status;
            && p in s1.db.payments && o in s1.db.orders
            && if at.AwaitingPayment? || at.PaymentProcessing? then
                 AllCareful(EMPTY, es) ==> s1.db.payments[p].status.Success? && s1.db.orders[o].at == Progress(Paid, true, false)
               else if (st.Pending? || st.Dropped? || st.RequiresReview?) && !Clash(s.db.payments, p, o) then
                 s1.db.payments[p].status.RequiresReview? && Job(p, o) in s1.db.jobs
               else s1 == s
  {
    hide Core, Stock, Run, Legal, AllCareful, Finalize, FinalizeOutcome, Clash, Shifted;
    CoreAlways(es);
    var s := Run(EMPTY, es);
    PaymentAt(s, p);
    FinalizeKeepsRows(s, p, o);
    if s.db.orders[o].at.status.AwaitingPayment? || s.db.orders[o].at.status.PaymentProcessing? {
      if AllCareful(EMPTY, es) {
        StockAlways(es);
        FinalizePays(s, p, o);
      }
    } else {
      FinalizeParks(s, p, o);
    }
  }

  lemma FinalizeKeepsRows(s: State, p: PaymentId, o: OrderId)
    requires Core(s) && p in s.db.payments && s.db.payments[p].order == o
    ensures p in Finalize(s, p, o).db.payments && (o in s.db.orders ==> o in Finalize(s, p, o).db.orders)
  {
    hide Core, Finalize, FinalizeOutcome;
    FinalizeClassified(s, p, o);
  }

  /** However long ago its payment passed the refundable check, SettleRefund asks for a restore
      only when the order is won to refunded in the same transaction, and leaves the payment
      refunded and the order reversed. In careful runs the restore is never refused, so the error
      it swallows never occurs. */
  lemma SettleAlwaysClean(es: seq<Step>, p: PaymentId, o: OrderId)
    requires Legal(EMPTY, es) && Enabled(Run(EMPTY, es), DoSettle(p, o))
    ensures var s := Run(EMPTY, es);
            && o in s.db.orders
            && (!SettleRestore(s.db.orders[o]).Skip? ==> Wins(s.db.orders, o, ToRefunded))
            && (Wins(s.db.orders, o, ToRefunded) || s.db.orders[o].at.reversed)
            && o in Settle(s, p, o).db.orders && Settle(s, p, o).db.orders[o].at.reversed
            && p in Settle(s, p, o).db.payments && Settle(s, p, o).db.payments[p].status.PaidBack?
    ensures AllCareful(EMPTY, es) ==>
              var s := Run(EMPTY, es);
              o in s.db.orders && CanRestore(s.db.levels, QuantitiesOf(s.db.orders[o].items), SettleRestore(s.db.orders[o]))
  {
    hide Core, Stock, Run, Legal, AllCareful, QuantitiesOf, CanRestore, SettleRestore, Restored, P.ReleasedPromos, P.ReleasedUsages;
    CoreAlways(es);
    JobAt(Run(EMPTY, es), p, o);
    PaymentAt(Run(EMPTY, es), p);
    SettleFindsSettled(Run(EMPTY, es), p, o);
    if AllCareful(EMPTY, es) {
      StockAlways(es);
      SettleStock(Run(EMPTY, es), p, o);
    }
  }

  /** Rows read before a transaction are harmless where the services rely on them: whenever an
      expiry wins, or a cancel wins from a payable status, the flags of the row read at any
      earlier moment are the row's. */
  lemma StaleReadsHarmless(es: seq<Step>, o: OrderId, read: Order, t: Transition)
    requires Legal(EMPTY, es) && Snap(o, read) in Run(EMPTY, es).h.snaps
    requires Wins(Run(EMPTY, es).db.orders, o, t)
    requires t.ToExpired? || (t.ToCancelled? && !Run(EMPTY, es).db.orders[o].at.status.FulfillmentFailed?)
    ensures var row := Run(EMPTY, es).db.orders[o];
            read.at.deducted == row.at.deducted && read.at.reversed == row.at.reversed &&
            read.items == row.items && read.coupon == row.coupon
  {
    hide Core, Run, Legal, QuantitiesOf, CanRestore;
    CoreAlways(es);
    SnapAt(Run(EMPTY, es), o, read);
    PayableRowsAreFresh(Run(EMPTY, es), o, read, t);
  }

  /** A payment of an order that is no longer payable never becomes successful. */
  lemma NoLateSuccess(s: State, e: Step, q: PaymentId)
    requires Core(s) && Enabled(s, e) && q in s.db.payments && !s.db.payments[q].status.Success?
    requires s.db.payments[q].order in s.db.orders && !Payable(s.db.orders[s.db.payments[q].order].at.status)
    ensures q in Next(s, e).db.payments && !Next(s, e).db.payments[q].status.Success?
  {
    hide Core, CreatePayment, DropPayment, Compensate, Settle, Finalize, Place, FinalizeFree, ReadOrder, Advance, Reverse,
      RequestRefund, Clear, Ship, Deliver, Adjust, TopUp, EnsureLevel, EditCart, EditPromo;
    if !MovesPayment(e) {
      PaymentsUntouched(s, e);
      return;
    }
    match e
    case DoFinalize(p, o) => FinalizeSuccesses(s, p, o, q);
    case DoCreatePayment(p, o, row) => OthersNeverSucceed(s, p, o, row.total, q);
    case DoCompensate(p, o) => CompensateNeverSucceeds(s, p, o, q);
    case DoDropPayment(p) => OthersNeverSucceed(s, p, s.db.payments[q].order, s.db.payments[q].amount, q);
    case DoSettle(p, o) => SettleNeverSucceeds(s, p, o, q);
  }

  /** Only a finalization makes a payment successful. */
  lemma OthersNeverSucceed(s: State, p: PaymentId, o: OrderId, amount: Money, q: PaymentId)
    requires q in s.db.payments && !s.db.payments[q].status.Success?
    ensures q in CreatePayment(s, p, o, amount).db.payments && !CreatePayment(s, p, o, amount).db.payments[q].status.Success?
    ensures q in DropPayment(s, p).db.payments && !DropPayment(s, p).db.payments[q].status.Success?
  {
    hide OtherActive;
  }

  lemma CompensateNeverSucceeds(s: State, p: PaymentId, o: OrderId, q: PaymentId)
    requires q in s.db.payments && !s.db.payments[q].status.Success?
    ensures q in Compensate(s, p, o).db.payments && !Compensate(s, p, o).db.payments[q].status.Success?
  {
    hide OtherActive, Cas;
  }

  lemma SettleNeverSucceeds(s: State, p: PaymentId, o: OrderId, q: PaymentId)
    requires q in s.db.payments && !s.db.payments[q].status.Success?
    ensures q in Settle(s, p, o).db.payments && !Settle(s, p, o).db.payments[q].status.Success?
  {
    hide CanRestore, Restored, QuantitiesOf, Cas, SettleRestore, Tally, IsRefundable, P.ReleasedPromos, P.ReleasedUsages;
  }

  lemma FinalizeSuccesses(s: State, p: PaymentId, o: OrderId, q: PaymentId)
    requires p in s.db.payments && s.db.payments[p].order == o
    requires q in s.db.payments && !s.db.payments[q].status.Success?
    requires s.db.payments[q].order in s.db.orders && !Payable(s.db.orders[s.db.payments[q].order].at.status)
    ensures q in Finalize(s, p, o).db.payments && !Finalize(s, p, o).db.payments[q].status.Success?
  {
    hide Inventory.Deducted, QuantitiesOf, Cas, CanMarkPaid, FinalizeOutcome;
    CompletedWasPayable(s, p, o);
  }

  lemma CompletedWasPayable(s: State, p: PaymentId, o: OrderId)
    ensures FinalizeOutcome(s, p, o).Completed? ==> o in s.db.orders && Payable(s.db.orders[o].at.status)
    ensures FinalizeOutcome(s, p, o).Parked? ==> p in s.db.payments
  {
    hide Holds, QuantitiesOf, OtherActive, CanMarkPaid;
  }

  /** Once a payment of an order is successful, no other ever is, then or later. */
  lemma {:induction false} OneSuccessEver(es: seq<Step>, later: seq<Step>, p: PaymentId, q: PaymentId)
    requires Legal(EMPTY, es) && Legal(Run(EMPTY, es), later) && p in Run(EMPTY, es).db.payments
    requires Run(EMPTY, es).db.payments[p].status.Success? && q != p
    ensures var s, s1 := Run(EMPTY, es), Run(Run(EMPTY, es), later);
            q in s1.db.payments && s1.db.payments[q].order == s.db.payments[p].order ==> !s1.db.payments[q].status.Success?
    decreases |later|
  {
    hide Core, Next, Enabled;
    var s := Run(EMPTY, es);
    CoreAlways(es);
    if later == [] {
      OnlyOne(s, p);
    } else {
      var before, e := later[..|later| - 1], later[|later| - 1];
      OneSuccessEver(es, before, p, q);
      RunForward(s, before);
      CapturedForGood(s, before, p);
      var mid := Run(s, before);
      StepPaymentsForward(mid, e);
      if q in mid.db.payments {
        if mid.db.payments[q].order == s.db.payments[p].order {
          NoLateSuccess(mid, e, q);
        }
      } else {
        NewIsPending(mid, e, q);
      }
    }
  }

  lemma NewIsPending(s: State, e: Step, q: PaymentId)
    requires Enabled(s, e) && q !in s.db.payments
    ensures q in Next(s, e).db.payments ==> !Next(s, e).db.payments[q].status.Success?
  {
    hide Cas, OtherActive, Settle, Compensate, Finalize, Place, FinalizeFree, ReadOrder, Advance, Reverse, RequestRefund, Clear,
      Ship, Deliver, Adjust, TopUp, EnsureLevel, EditCart, EditPromo;
    if MovesPayment(e) && !e.DoCreatePayment? {
      NoneCreated(s, e);
    } else if !MovesPayment(e) {
      PaymentsUntouched(s, e);
    }
  }

  lemma NoneCreated(s: State, e: Step)
    requires Enabled(s, e) && MovesPayment(e) && !e.DoCreatePayment?
    ensures Next(s, e).db.payments.Keys == s.db.payments.Keys
  {
    hide CanRestore, Restored, QuantitiesOf, OtherActive, Cas, SettleRestore, Tally, IsRefundable, CanMarkPaid, FinalizeOutcome,
      P.ReleasedPromos, P.ReleasedUsages;
    if e.DoFinalize? {
      CompletedWasPayable(s, e.p, e.o);
    }
  }

  // ---- coupons ----

  /** A coupon's count is its usage rows, which are the orders that carry it and are not
      reversed; an order's usage row, once gone, releases nothing more. */
  lemma CouponsCounted(es: seq<Step>, code: P.Code)
    requires Legal(EMPTY, es) && code in Run(EMPTY, es).db.promos
    ensures var s := Run(EMPTY, es);
            && s.db.promos[code].used == |P.Holders(s.db.usages, code)|
            && P.Holders(s.db.usages, code) ==
               set o | o in s.db.orders && s.db.orders[o].coupon == Some(code) && !s.db.orders[o].at.reversed
  {
    hide Run, Legal, OrderCore, PayCore, DispatchOk, CartsOk;
    CoreAlways(es);
  }

  predicate Capped(promos: P.Promos, code: P.Code) {
    code in promos && promos[code].maxUses.Some? ==> promos[code].used <= promos[code].maxUses.value
  }

  /** An edit of the coupon that sets its limit below the uses it already has. */
  predicate Undercuts(s: State, e: Step, code: P.Code) {
    e.DoEditPromo? && e.code == code && e.promo.maxUses.Some? &&
    e.promo.maxUses.value < if code in s.db.promos then s.db.promos[code].used else 0
  }

  /** A coupon goes past its limit only by an edit that undercuts it. */
  lemma CapHeld(s: State, e: Step, code: P.Code)
    requires Core(s) && Enabled(s, e) && Capped(s.db.promos, code)
    ensures Capped(Next(s, e).db.promos, code) <==> !Undercuts(s, e, code)
  {
    hide Core, Cas, CanRestore, Restored, QuantitiesOf, RestoreFor, SettleRestore, Wins, Tally, DraftOf, SetStatus,
      FinalizeFree, ReadOrder, Advance, CreatePayment, Finalize, Compensate, DropPayment, RequestRefund, Clear, Ship, Deliver,
      Adjust, TopUp, EnsureLevel, EditCart, EditPromo, Capped, P.ReleasedPromos, P.ReleasedUsages;
    match e
    case DoPlace(c, o) => PlaceCap(s.db, c, o, code);
    case DoCancel(o, row) => ReleasedCap(s.db, o, code);
    case DoExpire(o, row) => ReleasedCap(s.db, o, code);
    case DoSettle(p, o) => ReleasedCap(s.db, o, code);
    case DoEditPromo(k, promo) => EditCap(s, e, code);
    case _ => PromosUntouched(s, e);
  }

  lemma ReleasedCap(db: Db, o: OrderId, code: P.Code)
    requires Capped(db.promos, code)
    ensures Capped(P.ReleasedPromos(db.promos, db.usages, o), code)
  {
  }

  lemma EditCap(s: State, e: Step, code: P.Code)
    requires e.DoEditPromo? && Capped(s.db.promos, code)
    ensures Capped(EditPromo(s, e.code, e.promo).db.promos, code) <==> !Undercuts(s, e, code)
  {
  }

  predicate NeverUndercut(s: State, es: seq<Step>, code: P.Code) {
    es != [] ==>
      NeverUndercut(s, es[..|es| - 1], code) && !Undercuts(Run(s, es[..|es| - 1]), es[|es| - 1], code)
  }

  lemma {:induction false} CapAlways(es: seq<Step>, code: P.Code)
    requires Legal(EMPTY, es) && NeverUndercut(EMPTY, es, code)
    ensures Capped(Run(EMPTY, es).db.promos, code)
    decreases |es|
  {
    hide Core, Next, Enabled, Undercuts, Capped;
    if es == [] {
      NothingCapped(code);
    } else {
      CapAlways(es[..|es| - 1], code);
      CoreAlways(es[..|es| - 1]);
      CapHeld(Run(EMPTY, es[..|es| - 1]), es[|es| - 1], code);
    }
  }

  lemma NothingCapped(code: P.Code)
    ensures Capped(EMPTY.db.promos, code)
  {
  }

  lemma PromosUntouched(s: State, e: Step)
    requires !e.DoPlace? && !e.DoCancel? && !e.DoExpire? && !e.DoSettle? && !e.DoEditPromo?
    ensures Next(s, e).db.promos == s.db.promos
  {
    hide Cas, Holds, Inventory.Deducted, QuantitiesOf, OtherActive, Wins, CanAdjust, CanTopUp, FinalizeOutcome, SetStatus;
  }

  lemma PlaceCap(db: Db, c: Checkout, o: OrderId, code: P.Code)
    requires Capped(db.promos, code)
    ensures DraftOf(db, c, o).Ok? ==> Capped(DraftOf(db, c, o).value.promos, code)
  {
    hide QuantitiesOf, CanReserve, Priced, Snapshot, ItemsOf;
  }

  // ---- idempotency ----

  /** In every later state the key still names the order it placed, and placing again is refused
      without a trace. */
  lemma Replay(s: State, c: Checkout, o: OrderId, es: seq<Step>, c1: Checkout, o1: OrderId)
    requires Core(s) && o !in s.db.orders && DraftOf(s.db, c, o).Ok?
    requires Legal(Place(s, c, o), es) && c1.user == c.user && c1.key == c.key
    ensures var s1 := Run(Place(s, c, o), es);
            && (forall k | k in s1.db.orders :: s1.db.orders[k].user == c.user && s1.db.orders[k].key == c.key <==> k == o)
            && o in s1.db.orders && Evolves(DraftOf(s.db, c, o).value.row, s1.db.orders[o])
            && DraftOf(s1.db, c1, o1).Err? && Place(s1, c1, o1) == s1
  {
    hide Core, Run, Legal;
    PlaceCore(s, c, o);
    DraftMeans(s.db, c, o);
    RunForward(Place(s, c, o), es);
    var s1 := Run(Place(s, c, o), es);
    assert o in s1.db.orders && Evolves(Place(s, c, o).db.orders[o], s1.db.orders[o]);
    KeyNames(s1, o);
    RefusedAgain(s1.db, c1, o1);
  }

  lemma KeyNames(s: State, o: OrderId)
    requires Core(s) && o in s.db.orders
    ensures forall k | k in s.db.orders ::
              s.db.orders[k].user == s.db.orders[o].user && s.db.orders[k].key == s.db.orders[o].key <==> k == o
  {
    hide PayCore, CouponCore, DispatchOk, CartsOk, RowsOk, ItemsStocked, SnapsOk;
  }

  lemma RefusedAgain(db: Db, c: Checkout, o: OrderId)
    requires SameKey(db.orders, c.user, c.key)
    ensures DraftOf(db, c, o).Err?
  {
  }

  // ---- payment claims ----

  /** Order `o` went from another status to awaiting payment. */
  predicate Reopens(a: map<OrderId, Order>, b: map<OrderId, Order>, o: OrderId) {
    o in a && o in b && !a[o].at.status.AwaitingPayment? && b[o].at.status.AwaitingPayment?
  }

  lemma CasReopens(orders: map<OrderId, Order>, k: OrderId, t: Transition, o: OrderId)
    ensures Reopens(orders, Cas(orders, k, t), o) ==> k == o && t.ToAwaitingPayment? && Wins(orders, o, t)
  {
  }

  lemma PaymentStepsNeverReopen(s: State, e: Step, o: OrderId)
    requires e.DoFinalize? || e.DoCompensate? || e.DoSettle?
    ensures !Reopens(s.db.orders, Next(s, e).db.orders, o)
  {
    hide Cas, CanRestore, Restored, Inventory.Deducted, QuantitiesOf, OtherActive, FinalizeOutcome, IsRefundable, CanMarkPaid,
      SettleRestore, P.ReleasedPromos, P.ReleasedUsages, Wins, Reopens, Tally, SetStatus;
    NoReopening(s.db.orders, o);
    match e
    case DoFinalize(p, k) => CasReopens(s.db.orders, k, ToPaid, o); CasReopens(s.db.orders, k, ToFulfillmentFailedAfterCharge, o);
    case DoCompensate(p, k) => CasReopens(s.db.orders, k, ToFulfillmentFailedCompensating, o);
    case DoSettle(p, k) => CasReopens(s.db.orders, k, ToRefunded, o);
  }

  lemma OthersNeverReopen(s: State, e: Step, o: OrderId)
    requires Enabled(s, e) && !e.DoAdvance?
    ensures !Reopens(s.db.orders, Next(s, e).db.orders, o)
  {
    hide Cas, Holds, CanRestore, Restored, Inventory.Deducted, QuantitiesOf,
      RestoreFor, P.ReleasedPromos, P.ReleasedUsages, Wins, Reopens, Tally, Place, Finalize, Compensate, Settle,
      ReadOrder, CreatePayment, DropPayment, RequestRefund, Clear, Adjust, TopUp, EnsureLevel, EditCart, EditPromo;
    NoReopening(s.db.orders, o);
    if !MovesOrder(e) {
      OrdersUntouched(s, e);
      return;
    }
    match e
    case DoPlace(c, k) => PlaceReopens(s, c, k, o);
    case DoFinalizeFree(k) => CasReopens(s.db.orders, k, ToPaid, o);
    case DoCancel(k, row) => CasReopens(s.db.orders, k, ToCancelled, o);
    case DoExpire(k, row) => CasReopens(s.db.orders, k, ToExpired, o);
    case DoShip(k) => CasReopens(s.db.orders, k, ToShipped, o);
    case DoDeliver(k) => CasReopens(s.db.orders, k, ToDelivered, o);
    case _ => PaymentStepsNeverReopen(s, e, o);
  }

  /** A payment claim is given up by its release and by nothing else. */
  lemma OnlyReleaseReopens(s: State, e: Step, o: OrderId)
    requires Enabled(s, e)
    ensures Reopens(s.db.orders, Next(s, e).db.orders, o) ==>
              e == DoAdvance(o, ToAwaitingPayment) && Wins(s.db.orders, o, ToAwaitingPayment)
  {
    hide Cas, Reopens, Wins, Place, FinalizeFree, Reverse, Finalize, Compensate, Settle, Ship, Deliver, CreatePayment;
    if e.DoAdvance? {
      CasReopens(s.db.orders, e.o, e.t, o);
    } else {
      OthersNeverReopen(s, e, o);
    }
  }

  lemma NoReopening(orders: map<OrderId, Order>, o: OrderId)
    ensures !Reopens(orders, orders, o)
  {
  }

  lemma PlaceReopens(s: State, c: Checkout, k: OrderId, o: OrderId)
    requires k !in s.db.orders
    ensures !Reopens(s.db.orders, Place(s, c, k).db.orders, o)
  {
    hide DraftOf;
  }

  lemma {:induction false} ReopenedByRelease(s: State, es: seq<Step>, o: OrderId) returns (k: nat)
    requires Core(s) && Legal(s, es) && o in s.db.orders && o in Run(s, es).db.orders
    requires !s.db.orders[o].at.status.AwaitingPayment? && Run(s, es).db.orders[o].at.status.AwaitingPayment?
    ensures k < |es| && es[k] == DoAdvance(o, ToAwaitingPayment)
    ensures Wins(Run(s, es[..k]).db.orders, o, ToAwaitingPayment)
    decreases |es|
  {
    hide Core, Next, Enabled;
    var front := es[..|es| - 1];
    RunForward(s, front);
    var mid := Run(s, front);
    assert o in mid.db.orders;
    if mid.db.orders[o].at.status.AwaitingPayment? {
      k := ReopenedByRelease(s, front, o);
      assert front[..k] == es[..k];
    } else {
      assert Reopens(mid.db.orders, Next(mid, es[|es| - 1]).db.orders, o);
      OnlyReleaseReopens(mid, es[|es| - 1], o);
      k := |es| - 1;
    }
  }

  /** Two winning payment claims on one order are separated by a winning release of the first. */
  lemma ClaimsAreSeparated(s: State, es: seq<Step>, o: OrderId) returns (k: nat)
    requires Core(s) && Wins(s.db.orders, o, ToPaymentAttempt)
    requires Legal(Advance(s, o, ToPaymentAttempt), es)
    requires Wins(Run(Advance(s, o, ToPaymentAttempt), es).db.orders, o, ToPaymentAttempt)
    ensures k < |es| && es[k] == DoAdvance(o, ToAwaitingPayment)
    ensures Wins(Run(Advance(s, o, ToPaymentAttempt), es[..k]).db.orders, o, ToAwaitingPayment)
  {
    hide Core, Run, Legal;
    CasCore(s, o, ToPaymentAttempt);
    k := ReopenedByRelease(Advance(s, o, ToPaymentAttempt), es, o);
  }

  // ---- leaving a payment attempt ----

  predicate Charging(orders: map<OrderId, Order>, o: OrderId) {
    o in orders && orders[o].at.status.PaymentProcessing?
  }

  /** Order `o` stopped being charged and went to `st`. */
  predicate Leaves(a: map<OrderId, Order>, b: map<OrderId, Order>, o: OrderId, st: Status) {
    Charging(a, o) && o in b && b[o].at.status == st && !st.PaymentProcessing?
  }

  lemma CasLeaves(orders: map<OrderId, Order>, k: OrderId, t: Transition, o: OrderId, st: Status)
    ensures Leaves(orders, Cas(orders, k, t), o, st) ==>
              && k == o && st == t.To()
              && (t.ToAwaitingPayment? || t.ToPaid? || t.ToFulfillmentFailedCompensating? || t.ToCancelled?)
    ensures !Leaves(orders, orders, o, st)
  {
  }

  /** What may take an order out of a payment attempt: the release of the claim, a payment, a
      compensation or a cancel. */
  predicate EndsCharge(e: Step, o: OrderId, st: Status) {
    || (st.AwaitingPayment? && e.DoAdvance? && e.t.ToAwaitingPayment? && e.o == o)
    || (st.Paid? && (e.DoFinalize? || e.DoFinalizeFree?) && e.o == o)
    || (st.FulfillmentFailed? && e.DoCompensate? && e.o == o)
    || (st.Cancelled? && e.DoCancel? && e.o == o)
  }

  lemma PaymentStepLeaves(s: State, e: Step, o: OrderId, st: Status)
    requires e.DoFinalize? || e.DoCompensate? || e.DoSettle?
    requires Leaves(s.db.orders, Next(s, e).db.orders, o, st)
    ensures EndsCharge(e, o, st)
  {
    hide Cas, CanRestore, Restored, Inventory.Deducted, QuantitiesOf, OtherActive, FinalizeOutcome, IsRefundable, CanMarkPaid,
      SettleRestore, P.ReleasedPromos, P.ReleasedUsages, Wins, Leaves, Tally, SetStatus;
    match e
    case DoFinalize(p, k) => CasLeaves(s.db.orders, k, ToPaid, o, st); CasLeaves(s.db.orders, k, ToFulfillmentFailedAfterCharge, o, st);
    case DoCompensate(p, k) => CasLeaves(s.db.orders, k, ToFulfillmentFailedCompensating, o, st);
    case DoSettle(p, k) => CasLeaves(s.db.orders, k, ToRefunded, o, st);
  }

  /** No other step, and no expiry, moves an order that is being charged. */
  lemma StepLeaves(s: State, e: Step, o: OrderId, st: Status)
    requires Enabled(s, e) && Leaves(s.db.orders, Next(s, e).db.orders, o, st)
    ensures EndsCharge(e, o, st)
  {
    hide Cas, Leaves, Place, Finalize, Compensate, Settle, FinalizeFree, Reverse, Ship, Deliver,
      ReadOrder, CreatePayment, DropPayment, RequestRefund, Clear, Adjust, TopUp, EnsureLevel, EditCart, EditPromo;
    CasLeaves(s.db.orders, 0, ToPaid, o, st);
    if !MovesOrder(e) {
      OrdersUntouched(s, e);
      return;
    }
    match e
    case DoPlace(c, k) => PlaceLeaves(s, c, k, o, st);
    case DoFinalizeFree(k) => MovesLeave(s, k, o, st);
    case DoAdvance(k, t) => CasLeaves(s.db.orders, k, t, o, st);
    case DoCancel(k, row) => ReverseLeaves(s, k, row, ToCancelled, o, st);
    case DoExpire(k, row) => ReverseLeaves(s, k, row, ToExpired, o, st);
    case DoShip(k) => MovesLeave(s, k, o, st);
    case DoDeliver(k) => MovesLeave(s, k, o, st);
    case _ => PaymentStepLeaves(s, e, o, st);
  }

  lemma ReverseLeaves(s: State, k: OrderId, r: Order, t: Transition, o: OrderId, st: Status)
    requires t.ToCancelled? || t.ToExpired?
    ensures Leaves(s.db.orders, Reverse(s, k, r, t).db.orders, o, st) ==> k == o && t.ToCancelled? && st.Cancelled?
  {
    hide Cas, CanRestore, Restored, QuantitiesOf, RestoreFor, P.ReleasedPromos, P.ReleasedUsages, Wins, Leaves, Tally;
    CasLeaves(s.db.orders, k, t, o, st);
  }

  lemma MovesLeave(s: State, k: OrderId, o: OrderId, st: Status)
    ensures Leaves(s.db.orders, FinalizeFree(s, k).db.orders, o, st) ==> k == o && st.Paid?
    ensures !Leaves(s.db.orders, Ship(s, k).db.orders, o, st) && !Leaves(s.db.orders, Deliver(s, k).db.orders, o, st)
  {
    hide Cas, Holds, Inventory.Deducted, QuantitiesOf, Wins, Leaves;
    CasLeaves(s.db.orders, k, ToPaid, o, st);
    CasLeaves(s.db.orders, k, ToShipped, o, st);
    CasLeaves(s.db.orders, k, ToDelivered, o, st);
  }

  lemma PlaceLeaves(s: State, c: Checkout, k: OrderId, o: OrderId, st: Status)
    requires k !in s.db.orders
    ensures !Leaves(s.db.orders, Place(s, c, k).db.orders, o, st)
  {
    hide DraftOf;
  }

  /** An order being charged that is no longer so was moved by one of those steps. */
  lemma {:induction false} ChargeEnds(s: State, es: seq<Step>, o: OrderId) returns (k: nat)
    requires Core(s) && Legal(s, es) && Charging(s.db.orders, o) && !Charging(Run(s, es).db.orders, o)
    ensures k < |es| && Charging(Run(s, es[..k]).db.orders, o) && o in Run(s, es[..k + 1]).db.orders
    ensures EndsCharge(es[k], o, Run(s, es[..k + 1]).db.orders[o].at.status)
    decreases |es|
  {
    hide Core, Next, Enabled, EndsCharge;
    var front := es[..|es| - 1];
    RunForward(s, front);
    if Charging(Run(s, front).db.orders, o) {
      k := |es| - 1;
      RunForward(s, es);
      assert es[..k] == front && es[..k + 1] == es;
      StepLeaves(Run(s, front), es[k], o, Run(s, es).db.orders[o].at.status);
    } else {
      k := ChargeEnds(s, front, o);
      assert front[..k] == es[..k] && front[..k + 1] == es[..k + 1];
    }
  }
}
