/** Every step of the saga keeps the order, payment, coupon and dispatch clauses, whatever
    stale row it acts on. */
module SagaCore {
  import opened Common
  import opened OrderState
  import opened Inventory
  import opened Cart
  import opened Saga
  import opened SagaInvariant
  import P = Promotion

  // ---- what the clauses say of one row ----

  lemma OrderAt(s: State, o: OrderId)
    requires Core(s) && o in s.db.orders
    ensures RowsOk(s.db.orders) && Fits(s.db.orders[o].at) && s.db.orders[o].items != []
  {
    hide PayCore, CouponCore, DispatchOk, CartsOk, KeysUnique, ItemsStocked, SnapsOk;
  }

  lemma PaymentAt(s: State, p: PaymentId)
    requires Core(s) && p in s.db.payments
    ensures var pay := s.db.payments[p];
            && pay.order in s.db.orders
            && pay.amount == s.db.orders[pay.order].total
            && !pay.status.InProgress? && !pay.status.Failed?
            && (IsCaptured(pay.status) ==> !Payable(s.db.orders[pay.order].at.status))
            && (pay.status.Success? ==> s.db.orders[pay.order].at.deducted)
            && (p in s.h.cleared ==> IsCaptured(pay.status))
  {
    hide OrderCore, CouponCore, DispatchOk, CartsOk, OneOfEach, JobsOk;
    assert PaymentOk(s.db.orders, s.db.payments[p]);
  }

  lemma JobAt(s: State, p: PaymentId, o: OrderId)
    requires Core(s) && Job(p, o) in s.db.jobs
    ensures p in s.db.payments && s.db.payments[p].order == o
  {
    hide OrderCore, CouponCore, DispatchOk, CartsOk, OneOfEach, PaymentsOk, ClearedOk;
  }

  lemma SnapAt(s: State, o: OrderId, r: Order)
    requires Core(s) && Snap(o, r) in s.h.snaps
    ensures o in s.db.orders && Evolves(r, s.db.orders[o])
  {
    hide PayCore, CouponCore, DispatchOk, CartsOk, RowsOk, KeysUnique, ItemsStocked;
  }

  // ---- the order side of a step ----

  /** One compare-and-set that reverses nothing keeps every clause. */
  lemma CasCore(s: State, o: OrderId, t: Transition)
    requires Core(s) && !t.ReversesStock()
    ensures Core(Advance(s, o, t))
  {
    hide OrderCore, PayCore, CouponCore, DispatchOk, CartsOk, Cas, Wins;
    RowsAt(s);
    CasOrders(s.db.orders, s.db.levels, s.h.snaps, o, t);
    CasPayments(s.db.orders, s.db.payments, s.db.jobs, s.h.cleared, o, t);
    CasKeepsCoupons(s.db.orders, s.db.promos, s.db.usages, o, t);
    CasDispatch(s.db.orders, s.db.shipments, s.h.dispatched, o, t);
  }

  lemma RowsAt(s: State)
    requires Core(s)
    ensures RowsOk(s.db.orders)
  {
    hide PayCore, CouponCore, DispatchOk, CartsOk, RowsOk, KeysUnique, ItemsStocked, SnapsOk;
  }

  /** A step that changes levels and counts on top of a state whose clauses hold. */
  lemma RelevelledCore(s: State, levels: Levels, deducts: map<OrderId, nat>)
    requires Core(s) && s.db.levels.Keys <= levels.Keys
    ensures Core(State(s.db.(levels := levels), s.h.(deducts := deducts)))
  {
    hide OrderCore, PayCore, CouponCore, DispatchOk, CartsOk;
    StockedCarries(s.db.orders, s.db.levels, s.h.snaps, levels);
  }

  /** A step that changes a payment's status on top of a state whose clauses hold. */
  lemma PaymentCore(s: State, p: PaymentId, st: PaymentStatus)
    requires Core(s) && p in s.db.payments && s.db.payments[p].order in s.db.orders
    requires !st.InProgress? && !st.Failed?
    requires IsCaptured(st) ==> !Payable(s.db.orders[s.db.payments[p].order].at.status)
    requires IsActive(st) ==> !OtherActive(s.db.payments, p, s.db.payments[p].order)
    requires st.Success? ==> s.db.orders[s.db.payments[p].order].at.deducted
    requires st.Success? ==>
               forall q | q in s.db.payments && q != p && s.db.payments[q].order == s.db.payments[p].order ::
                 !s.db.payments[q].status.Success?
    requires p in s.h.cleared ==> IsCaptured(st)
    ensures Core(s.(db := s.db.(payments := SetStatus(s.db.payments, p, st))))
  {
    hide OrderCore, PayCore, CouponCore, DispatchOk, CartsOk;
    PaymentSet(s.db.orders, s.db.payments, s.db.jobs, s.h.cleared, p, st);
  }

  lemma JobCore(s: State, p: PaymentId)
    requires Core(s) && p in s.db.payments
    ensures Core(s.(db := s.db.(jobs := s.db.jobs + {Job(p, s.db.payments[p].order)})))
  {
    hide OrderCore, PayCore, CouponCore, DispatchOk, CartsOk;
    PaymentJob(s.db.orders, s.db.payments, s.db.jobs, s.h.cleared, p);
  }

  // ---- steps ----

  lemma CreatePaymentCore(s: State, p: PaymentId, o: OrderId, amount: Money)
    requires Core(s) && o in s.db.orders && amount == s.db.orders[o].total
    ensures Core(CreatePayment(s, p, o, amount))
  {
    hide OrderCore, CouponCore, DispatchOk, CartsOk;
    var s1 := CreatePayment(s, p, o, amount);
    forall q | q in s1.db.payments ensures PaymentOk(s.db.orders, s1.db.payments[q]) {
      if q in s.db.payments {
        assert PaymentOk(s.db.orders, s.db.payments[q]);
      }
    }
  }

  /** No payment of a payable order has captured funds. */
  lemma NoneCaptured(s: State, o: OrderId)
    requires Core(s) && o in s.db.orders && Payable(s.db.orders[o].at.status)
    ensures forall q | q in s.db.payments && s.db.payments[q].order == o :: !IsCaptured(s.db.payments[q].status)
  {
    hide OrderCore, CouponCore, DispatchOk, CartsOk, OneOfEach, JobsOk, ClearedOk;
    forall q | q in s.db.payments && s.db.payments[q].order == o ensures !IsCaptured(s.db.payments[q].status) {
      assert PaymentOk(s.db.orders, s.db.payments[q]);
    }
  }

  /** What a finalization can come to in a reachable state: the amounts never disagree, the
      order never moves without its payment, and the stock moves with the order. */
  lemma FinalizeClassified(s: State, p: PaymentId, o: OrderId)
    requires Core(s) && p in s.db.payments && s.db.payments[p].order == o
    ensures !FinalizeOutcome(s, p, o).Missing? && !FinalizeOutcome(s, p, o).Mismatch?
    ensures Wins(s.db.orders, o, ToPaid) ==> CanMarkPaid(s.db.payments, p)
    ensures var s1 := Finalize(s, p, o);
            match FinalizeOutcome(s, p, o)
            case Completed =>
              o in s1.db.orders && p in s1.db.payments &&
              s1.db.payments[p].status.Success? && s1.db.orders[o].at == Progress(Paid, true, false) &&
              Count(s1.h.deducts, o) == Count(s.h.deducts, o) + 1
            case Parked =>
              o in s1.db.orders && p in s1.db.payments &&
              s1.db.payments[p].status.RequiresReview? && !Payable(s1.db.orders[o].at.status) &&
              Job(p, o) in s1.db.jobs && s1.db.levels == s.db.levels
            case _ => s1 == s
  {
    hide Core, RowsOk, QuantitiesOf, Holds, OtherActive, Inventory.Deducted;
    PaymentAt(s, p);
    OrderAt(s, o);
  }

  lemma CompletedCore(s: State, p: PaymentId, o: OrderId)
    requires Core(s) && p in s.db.payments && s.db.payments[p].order == o
    requires FinalizeOutcome(s, p, o).Completed?
    ensures Core(Finalize(s, p, o))
  {
    hide Core;
    FinalizeClassified(s, p, o);
    NoneCaptured(s, o);
    CasCore(s, o, ToPaid);
    var s1 := Advance(s, o, ToPaid);
    PaymentCore(s1, p, Success);
    var s2 := s1.(db := s1.db.(payments := SetStatus(s1.db.payments, p, Success)));
    RelevelledCore(s2, Finalize(s, p, o).db.levels, Finalize(s, p, o).h.deducts);
  }

  lemma ParkedCore(s: State, p: PaymentId, o: OrderId)
    requires Core(s) && p in s.db.payments && s.db.payments[p].order == o
    requires FinalizeOutcome(s, p, o).Parked?
    ensures Core(Finalize(s, p, o))
  {
    hide Core;
    FinalizeClassified(s, p, o);
    CasCore(s, o, ToFulfillmentFailedAfterCharge);
    var s1 := Advance(s, o, ToFulfillmentFailedAfterCharge);
    PaymentCore(s1, p, RequiresReview);
    JobCore(s1.(db := s1.db.(payments := SetStatus(s1.db.payments, p, RequiresReview))), p);
  }

  lemma FinalizeCore(s: State, p: PaymentId, o: OrderId)
    requires Core(s) && p in s.db.payments && s.db.payments[p].order == o
    ensures Core(Finalize(s, p, o))
  {
    hide Core;
    match FinalizeOutcome(s, p, o)
    case Completed => CompletedCore(s, p, o);
    case Parked => ParkedCore(s, p, o);
    case _ =>
  }

  /** What a compensation leaves unless the unique index rolls it back: a refund job, an order
      that is no longer payable, and a parked payment unless the gateway had already dropped it. */
  lemma CompensateClassified(s: State, p: PaymentId, o: OrderId)
    requires Core(s) && p in s.db.payments && s.db.payments[p].order == o
    ensures var s1, st := Compensate(s, p, o), s.db.payments[p].status;
            && o in s1.db.orders && p in s1.db.payments && s1.db.levels == s.db.levels
            && if (st.Pending? || st.Success?) && OtherActive(s.db.payments, p, o) then s1 == s
               else
                 && Job(p, o) in s1.db.jobs && !Payable(s1.db.orders[o].at.status)
                 && (if st.Pending? || st.Success? then s1.db.payments[p].status.RequiresReview?
                     else s1.db.payments[p].status == st && (IsCaptured(st) || st.Dropped?))
  {
    hide Core, RowsOk, OtherActive;
    PaymentAt(s, p);
    OrderAt(s, o);
  }

  lemma CompensateCore(s: State, p: PaymentId, o: OrderId)
    requires Core(s) && p in s.db.payments && s.db.payments[p].order == o
    ensures Core(Compensate(s, p, o))
  {
    hide Core;
    PaymentAt(s, p);
    CasCore(s, o, ToFulfillmentFailedCompensating);
    var s1 := Advance(s, o, ToFulfillmentFailedCompensating);
    var pay := s.db.payments[p];
    if pay.status.Pending? || pay.status.InProgress? || pay.status.Success? {
      if !OtherActive(s.db.payments, p, o) {
        PaymentCore(s1, p, RequiresReview);
        JobCore(s1.(db := s1.db.(payments := SetStatus(s1.db.payments, p, RequiresReview))), p);
      }
    } else {
      JobCore(s1, p);
    }
  }

  lemma DropPaymentCore(s: State, p: PaymentId)
    requires Core(s)
    ensures Core(DropPayment(s, p))
  {
    hide Core;
    if DropPayment(s, p) != s {
      PaymentAt(s, p);
      PaymentCore(s, p, Dropped);
    }
  }

  lemma RequestRefundCore(s: State, p: PaymentId)
    requires Core(s)
    ensures Core(RequestRefund(s, p))
  {
    hide Core;
    if RequestRefund(s, p) != s {
      JobCore(s, p);
    }
  }

  lemma ClearCore(s: State, p: PaymentId)
    requires Core(s)
    ensures Core(Clear(s, p))
  {
    hide OrderCore, CouponCore, DispatchOk, CartsOk, PaymentsOk, OneOfEach, JobsOk;
  }

  /** The only way SettleRefund's compare-and-set on the order can lose: the order is already
      reversed. */
  lemma SettleFindsSettled(s: State, p: PaymentId, o: OrderId)
    requires Core(s) && Job(p, o) in s.db.jobs && p in s.h.cleared
    ensures o in s.db.orders && !Payable(s.db.orders[o].at.status)
    ensures Wins(s.db.orders, o, ToRefunded) || s.db.orders[o].at.reversed
    ensures !SettleRestore(s.db.orders[o]).Skip? ==> Wins(s.db.orders, o, ToRefunded)
  {
    hide Core, RowsOk;
    JobAt(s, p, o);
    PaymentAt(s, p);
    OrderAt(s, o);
  }

  /** One reversing compare-and-set with its coupon release keeps every clause. */
  lemma ReversalCore(s: State, o: OrderId, t: Transition, levels: Levels, h: History)
    requires Core(s) && o in s.db.orders && s.db.levels.Keys <= levels.Keys
    requires t.ReversesStock() && (Wins(s.db.orders, o, t) || s.db.orders[o].at.reversed)
    requires h.snaps == s.h.snaps && h.cleared == s.h.cleared && h.dispatched == s.h.dispatched
    ensures var db := s.db.(orders := Cas(s.db.orders, o, t), levels := levels);
            Core(State(if s.db.orders[o].coupon.Some? then ReleaseCoupon(db, o) else db, h))
  {
    hide OrderCore, PayCore, CouponCore, DispatchOk, CartsOk, Cas, Wins, P.ReleasedPromos, P.ReleasedUsages;
    RowsAt(s);
    CasOrders(s.db.orders, s.db.levels, s.h.snaps, o, t);
    StockedCarries(Cas(s.db.orders, o, t), s.db.levels, s.h.snaps, levels);
    CasPayments(s.db.orders, s.db.payments, s.db.jobs, s.h.cleared, o, t);
    CasReleasesCoupon(s.db.orders, s.db.promos, s.db.usages, o, t);
    CasDispatch(s.db.orders, s.db.shipments, s.h.dispatched, o, t);
  }

  lemma TallyKeeps(h: History, o: OrderId, b: Restore)
    ensures var h1 := Tally(h, o, b);
            h1.snaps == h.snaps && h1.cleared == h.cleared && h1.dispatched == h.dispatched && h1.stocked == h.stocked
  {
  }

  lemma SettleCore(s: State, p: PaymentId, o: OrderId)
    requires Core(s) && Job(p, o) in s.db.jobs && p in s.h.cleared
    ensures Core(Settle(s, p, o))
  {
    hide Core, Cas, Wins, Restored, CanRestore, QuantitiesOf, SettleRestore, Payable, OtherActive, Tally,
      P.ReleasedPromos, P.ReleasedUsages;
    JobAt(s, p, o);
    PaymentAt(s, p);
    SettleFindsSettled(s, p, o);
    TallyKeeps(s.h, o, SettleRestore(s.db.orders[o]));
    RestoreKeepsKeys(s.db.levels, QuantitiesOf(s.db.orders[o].items), SettleRestore(s.db.orders[o]));
    var s1 := if IsRefundable(s.db.payments[p].status)
              then s.(db := s.db.(payments := SetStatus(s.db.payments, p, PaidBack))) else s;
    if IsRefundable(s.db.payments[p].status) {
      PaymentCore(s, p, PaidBack);
    }
    ReversalCore(s1, o, ToRefunded, Settle(s, p, o).db.levels, Settle(s, p, o).h);
  }

  lemma ReverseCore(s: State, o: OrderId, r: Order, t: Transition)
    requires Core(s) && Snap(o, r) in s.h.snaps && (t.ToCancelled? || t.ToExpired?)
    ensures Core(Reverse(s, o, r, t))
  {
    hide Core;
    SnapAt(s, o, r);
    if Wins(s.db.orders, o, t) {
      ReversalCore(s, o, t, Reverse(s, o, r, t).db.levels, Reverse(s, o, r, t).h);
    }
  }

  lemma FinalizeFreeCore(s: State, o: OrderId)
    requires Core(s)
    ensures Core(FinalizeFree(s, o))
  {
    hide Core;
    CasCore(s, o, ToPaid);
    RelevelledCore(Advance(s, o, ToPaid), FinalizeFree(s, o).db.levels, FinalizeFree(s, o).h.deducts);
  }

  lemma ShipCore(s: State, o: OrderId)
    requires Core(s)
    ensures Core(Ship(s, o)) && Core(Deliver(s, o))
  {
    hide OrderCore, PayCore, CouponCore, CartsOk;
    CasCore(s, o, ToShipped);
    CasCore(s, o, ToDelivered);
  }

  lemma ReadOrderCore(s: State, o: OrderId)
    requires Core(s)
    ensures Core(ReadOrder(s, o))
  {
    hide PayCore, CouponCore, DispatchOk, CartsOk, RowsOk, KeysUnique, ItemsStocked;
  }

  lemma RelevelCore(s: State, p: ProductId, levels: Levels)
    requires Core(s) && s.db.levels.Keys <= levels.Keys
    ensures Core(Relevel(s, p, levels))
  {
    hide OrderCore, PayCore, CouponCore, DispatchOk, CartsOk;
    StockedCarries(s.db.orders, s.db.levels, s.h.snaps, levels);
  }
}
