/** What every run keeps, however stale the rows its cancels act on: each deduction happens once,
    no restore comes before its reversal or after a dispatch, and no quantity goes negative. */
module SagaLedger {
  import opened OrderState
  import opened Inventory
  import opened Cart
  import opened Saga
  import opened SagaInvariant
  import opened SagaCore
  import opened SagaStock
  import opened SagaPlace
  import opened SagaRuns
  import P = Promotion

  /** What the counts of one order are in any run. */
  ghost predicate CountsOk(s: State, o: OrderId) {
    var deducts, releases, restocks := Count(s.h.deducts, o), Count(s.h.releases, o), Count(s.h.restocks, o);
    if o in s.db.orders then
      var at := s.db.orders[o].at;
      && deducts == (if at.deducted then 1 else 0)
      && (restocks > 0 ==> at.deducted)
      && (!at.reversed || o in s.h.dispatched ==> releases == restocks == 0)
    else deducts == releases == restocks == 0
  }

  ghost predicate Ledger(s: State) {
    forall o: OrderId :: CountsOk(s, o)
  }

  ghost predicate NonNegative(levels: Levels) {
    forall p | p in levels :: levels[p].available >= 0 && levels[p].reserved >= 0
  }

  // ---- counts ----

  /** Everything CountsOk reads of an order other than `o` is the same in both states. */
  ghost predicate OnlyCounts(s: State, s1: State, o: OrderId) {
    forall k: OrderId | k != o ::
      && (k in s1.db.orders <==> k in s.db.orders)
      && (k in s.db.orders ==> s1.db.orders[k] == s.db.orders[k])
      && Count(s1.h.deducts, k) == Count(s.h.deducts, k)
      && Count(s1.h.releases, k) == Count(s.h.releases, k)
      && Count(s1.h.restocks, k) == Count(s.h.restocks, k)
      && (k in s1.h.dispatched <==> k in s.h.dispatched)
  }

  lemma LedgerCarries(s: State, s1: State, o: OrderId)
    requires Ledger(s) && OnlyCounts(s, s1, o) && CountsOk(s1, o)
    ensures Ledger(s1)
  {
    forall k: OrderId ensures CountsOk(s1, k) {
      assert CountsOk(s, k);
    }
  }

  lemma LedgerAtRest(s: State, s1: State)
    requires Ledger(s) && s1.db.orders == s.db.orders
    requires s1.h.deducts == s.h.deducts && s1.h.releases == s.h.releases && s1.h.restocks == s.h.restocks
    requires s1.h.dispatched == s.h.dispatched
    ensures Ledger(s1)
  {
    LedgerCarries(s, s1, 0) by {
      assert CountsOk(s, 0);
    }
  }

  lemma AdvanceLedger(s: State, o: OrderId, t: Transition)
    requires Core(s) && Ledger(s) && !t.DeductsStock() && !t.ReversesStock()
    ensures Ledger(Advance(s, o, t))
  {
    hide Core;
    if Wins(s.db.orders, o, t) {
      OrderAt(s, o);
      assert CountsOk(s, o);
      LedgerCarries(s, Advance(s, o, t), o);
    } else {
      LedgerAtRest(s, Advance(s, o, t));
    }
  }

  lemma PayLedger(s: State, o: OrderId)
    requires Core(s) && Ledger(s)
    ensures Ledger(FinalizeFree(s, o))
  {
    hide Core, Holds, QuantitiesOf, Inventory.Deducted;
    if FinalizeFree(s, o) != s {
      OrderAt(s, o);
      assert CountsOk(s, o);
      LedgerCarries(s, FinalizeFree(s, o), o);
    }
  }

  lemma FinalizeLedger(s: State, p: PaymentId, o: OrderId)
    requires Core(s) && Ledger(s) && p in s.db.payments && s.db.payments[p].order == o
    ensures Ledger(Finalize(s, p, o))
  {
    hide Core, Ledger, Holds, QuantitiesOf, Inventory.Deducted, OtherActive, CanMarkPaid, SetStatus, Cas, Wins;
    PayLedger(s, o);
    AdvanceLedger(s, o, ToFulfillmentFailedAfterCharge);
    match FinalizeOutcome(s, p, o)
    case Completed => LedgerAtRest(FinalizeFree(s, o), Finalize(s, p, o));
    case Parked => LedgerAtRest(Advance(s, o, ToFulfillmentFailedAfterCharge), Finalize(s, p, o));
    case _ =>
  }

  lemma CompensateLedger(s: State, p: PaymentId, o: OrderId)
    requires Core(s) && Ledger(s)
    ensures Ledger(Compensate(s, p, o))
  {
    hide Core, Ledger, OtherActive, SetStatus, Cas, Wins;
    AdvanceLedger(s, o, ToFulfillmentFailedCompensating);
    if Compensate(s, p, o) != s {
      LedgerAtRest(Advance(s, o, ToFulfillmentFailedCompensating), Compensate(s, p, o));
    }
  }

  /** Reversing an order with a restore that restocks only what was deducted, and nothing once
      dispatched. */
  lemma ReversedLedger(s: State, o: OrderId, t: Transition, b: Restore)
    requires Ledger(s) && Wins(s.db.orders, o, t) && t.ReversesStock()
    requires b.Restock? ==> s.db.orders[o].at.deducted
    requires o in s.h.dispatched ==> b.Skip?
    ensures Ledger(Reversed(s, o, t, b))
  {
    hide QuantitiesOf, Restored;
    assert CountsOk(s, o);
    LedgerCarries(s, Reversed(s, o, t, b), o);
  }

  lemma ReverseLedger(s: State, o: OrderId, r: Order, t: Transition)
    requires Core(s) && Ledger(s) && Snap(o, r) in s.h.snaps && (t.ToCancelled? || t.ToExpired?)
    ensures Ledger(Reverse(s, o, r, t))
  {
    hide Core, Ledger, QuantitiesOf, CanRestore, Restored, P.ReleasedPromos, P.ReleasedUsages;
    if Reverse(s, o, r, t) != s {
      SnapAt(s, o, r);
      DispatchAt(s, o);
      var b := RestoreFor(s.db.orders[o].items, r.at);
      ReversedLedger(s, o, t, b);
      LedgerAtRest(Reversed(s, o, t, b), Reverse(s, o, r, t));
    }
  }

  /** The restore a settle commits. */
  function SettleMove(s: State, o: OrderId): Restore
    requires o in s.db.orders
  {
    var row := s.db.orders[o];
    if CanRestore(s.db.levels, QuantitiesOf(row.items), SettleRestore(row)) then SettleRestore(row) else Skip
  }

  lemma SettleCounts(s: State, p: PaymentId, o: OrderId)
    requires o in s.db.orders
    ensures Settle(s, p, o).db.orders == Cas(s.db.orders, o, ToRefunded)
    ensures Settle(s, p, o).h == Tally(s.h, o, SettleMove(s, o))
  {
    hide QuantitiesOf, CanRestore, Restored, SetStatus, Cas, IsRefundable, SettleRestore, P.ReleasedPromos, P.ReleasedUsages;
  }

  lemma SettleMoveDue(s: State, o: OrderId)
    requires Core(s) && o in s.db.orders
    ensures SettleMove(s, o).Restock? ==> s.db.orders[o].at.deducted
    ensures o in s.h.dispatched ==> SettleMove(s, o).Skip?
  {
    hide Core, QuantitiesOf, CanRestore;
    DispatchAt(s, o);
    OrderAt(s, o);
  }

  lemma SettleLedger(s: State, p: PaymentId, o: OrderId)
    requires Core(s) && Ledger(s) && Job(p, o) in s.db.jobs && p in s.h.cleared
    ensures Ledger(Settle(s, p, o))
  {
    hide Core, Ledger, QuantitiesOf, CanRestore, Restored, Settle, SettleRestore, Wins;
    SettleFindsSettled(s, p, o);
    SettleCounts(s, p, o);
    if Wins(s.db.orders, o, ToRefunded) {
      SettleMoveDue(s, o);
      ReversedLedger(s, o, ToRefunded, SettleMove(s, o));
      LedgerAtRest(Reversed(s, o, ToRefunded, SettleMove(s, o)), Settle(s, p, o));
    } else {
      LedgerAtRest(s, Settle(s, p, o));
    }
  }

  lemma PlaceLedger(s: State, c: Checkout, o: OrderId)
    requires Core(s) && Ledger(s) && o !in s.db.orders
    ensures Ledger(Place(s, c, o))
  {
    hide Core, DraftOf, QuantitiesOf, Reserved, ItemsOf, Snapshot, SumOfSubtotals, Total;
    if DraftOf(s.db, c, o).Ok? {
      DraftMeans(s.db, c, o);
      CoreDispatch(s, o);
      assert CountsOk(s, o);
      LedgerCarries(s, Place(s, c, o), o);
    }
  }

  lemma ShipLedger(s: State, o: OrderId)
    requires Core(s) && Ledger(s)
    ensures Ledger(Ship(s, o)) && Ledger(Deliver(s, o))
  {
    hide Core, Ledger, Advance, Wins;
    AdvanceLedger(s, o, ToShipped);
    AdvanceLedger(s, o, ToDelivered);
    LedgerAtRest(Advance(s, o, ToShipped), Advance(s, o, ToShipped).(db := Advance(s, o, ToShipped).db.(shipments := s.db.shipments[o := InTransit])));
    LedgerAtRest(Advance(s, o, ToDelivered), Advance(s, o, ToDelivered).(db := Advance(s, o, ToDelivered).db.(shipments := s.db.shipments[o := Arrived])));
  }

  predicate Quiet(e: Step) {
    e.DoRead? || e.DoCreatePayment? || e.DoDropPayment? || e.DoRequestRefund? || e.DoClear? ||
    e.DoAdjust? || e.DoTopUp? || e.DoEnsureLevel? || e.DoEditCart? || e.DoEditPromo?
  }

  lemma QuietLedger(s: State, e: Step)
    requires Ledger(s) && Quiet(e)
    ensures Ledger(Next(s, e))
  {
    hide Ledger, OtherActive, SetStatus, IsRefundable, CanAdjust, CanTopUp, Adjusted, ToppedUp;
    LedgerAtRest(s, Next(s, e));
  }

  lemma StepLedger(s: State, e: Step)
    requires Core(s) && Ledger(s) && Enabled(s, e)
    ensures Ledger(Next(s, e))
  {
    hide Core, Ledger, Place, FinalizeFree, ReadOrder, Advance, Reverse, CreatePayment, Finalize, Compensate, DropPayment,
      RequestRefund, Clear, Settle, Ship, Deliver, EditCart, EditPromo, Adjust, TopUp, EnsureLevel;
    if Quiet(e) {
      QuietLedger(s, e);
      return;
    }
    match e
    case DoPlace(c, o) => PlaceLedger(s, c, o);
    case DoFinalizeFree(o) => PayLedger(s, o);
    case DoAdvance(o, t) => AdvanceLedger(s, o, t);
    case DoCancel(o, row) => ReverseLedger(s, o, row, ToCancelled);
    case DoExpire(o, row) => ReverseLedger(s, o, row, ToExpired);
    case DoFinalize(p, o) => FinalizeLedger(s, p, o);
    case DoCompensate(p, o) => CompensateLedger(s, p, o);
    case DoSettle(p, o) => SettleLedger(s, p, o);
    case DoShip(o) => ShipLedger(s, o);
    case DoDeliver(o) => ShipLedger(s, o);
  }

  // ---- levels ----

  lemma BatchesStayNonNegative(levels: Levels, q: Quantities, b: Restore)
    requires NonNegative(levels) && forall p | p in q :: q[p] > 0
    ensures NonNegative(Reserved(levels, q)) && NonNegative(Inventory.Deducted(levels, q)) && NonNegative(Restored(levels, q, b))
  {
  }

  lemma RowPositive(s: State, o: OrderId)
    requires Core(s) && o in s.db.orders
    ensures forall p | p in QuantitiesOf(s.db.orders[o].items) :: QuantitiesOf(s.db.orders[o].items)[p] > 0
  {
    hide Core, QuantitiesOf;
    forall p | p in QuantitiesOf(s.db.orders[o].items) ensures QuantitiesOf(s.db.orders[o].items)[p] > 0 {
      RowQty(s, o, p);
    }
  }

  lemma PlaceNonNegative(s: State, c: Checkout, o: OrderId)
    requires Core(s) && NonNegative(s.db.levels) && o !in s.db.orders
    ensures NonNegative(Place(s, c, o).db.levels)
  {
    hide Core, DraftOf, QuantitiesOf, Reserved, NonNegative;
    if DraftOf(s.db, c, o).Ok? {
      PlaceCore(s, c, o);
      RowPositive(Place(s, c, o), o);
      BatchesStayNonNegative(s.db.levels, QuantitiesOf(DraftOf(s.db, c, o).value.row.items), Skip);
    }
  }

  /** `levels` are the levels of `s` after at most one batch for the items of order `o`. */
  ghost predicate OneBatch(s: State, o: OrderId, levels: Levels) {
    levels == s.db.levels ||
    (o in s.db.orders &&
     var q := QuantitiesOf(s.db.orders[o].items);
     || levels == Inventory.Deducted(s.db.levels, q)
     || levels == Released(s.db.levels, q)
     || levels == Restocked(s.db.levels, q))
  }

  lemma OneBatchNonNegative(s: State, o: OrderId, levels: Levels)
    requires Core(s) && NonNegative(s.db.levels) && OneBatch(s, o, levels)
    ensures NonNegative(levels)
  {
    hide Core, QuantitiesOf, Inventory.Deducted, Released, Restocked, NonNegative;
    if o in s.db.orders {
      RowPositive(s, o);
      BatchesStayNonNegative(s.db.levels, QuantitiesOf(s.db.orders[o].items), Release);
      BatchesStayNonNegative(s.db.levels, QuantitiesOf(s.db.orders[o].items), Restock);
    }
  }

  lemma FreeBatches(s: State, o: OrderId)
    ensures OneBatch(s, o, FinalizeFree(s, o).db.levels)
  {
    hide QuantitiesOf, Inventory.Deducted, Released, Restocked, Holds, Cas;
  }

  lemma ReverseBatches(s: State, o: OrderId, r: Order, t: Transition)
    ensures OneBatch(s, o, Reverse(s, o, r, t).db.levels)
  {
    hide QuantitiesOf, Inventory.Deducted, Released, Restocked, Holds, CanRestore, Cas, Tally, P.ReleasedPromos, P.ReleasedUsages, RestoreFor;
  }

  lemma FinalizeBatches(s: State, p: PaymentId, o: OrderId)
    requires p in s.db.payments
    ensures OneBatch(s, o, Finalize(s, p, o).db.levels)
  {
    hide QuantitiesOf, Inventory.Deducted, Released, Restocked, Cas, SetStatus, CanMarkPaid, FinalizeOutcome;
    Outcomes(s, p, o);
  }

  lemma SettleBatches(s: State, p: PaymentId, o: OrderId)
    ensures OneBatch(s, o, Settle(s, p, o).db.levels)
  {
    hide QuantitiesOf, Inventory.Deducted, Released, Restocked, CanRestore, Cas, Tally, SetStatus, IsRefundable,
      P.ReleasedPromos, P.ReleasedUsages, SettleRestore;
  }

  lemma Outcomes(s: State, p: PaymentId, o: OrderId)
    ensures FinalizeOutcome(s, p, o).Completed? ==> o in s.db.orders
  {
    hide Holds, QuantitiesOf, OtherActive;
  }

  predicate Relevels(e: Step) {
    e.DoAdjust? || e.DoTopUp? || e.DoEnsureLevel?
  }

  lemma RelevelsNonNegative(s: State, e: Step)
    requires NonNegative(s.db.levels) && Relevels(e)
    ensures NonNegative(Next(s, e).db.levels)
  {
  }

  predicate Batches(e: Step) {
    e.DoFinalizeFree? || e.DoCancel? || e.DoExpire? || e.DoFinalize? || e.DoSettle?
  }

  lemma LevelsStay(s: State, e: Step)
    requires !e.DoPlace? && !Relevels(e) && !Batches(e)
    ensures Next(s, e).db.levels == s.db.levels
  {
    hide Cas, Wins, SetStatus, OtherActive, IsRefundable;
  }

  lemma StepNonNegative(s: State, e: Step)
    requires Core(s) && NonNegative(s.db.levels) && Enabled(s, e)
    ensures NonNegative(Next(s, e).db.levels)
  {
    hide Core, OneBatch, NonNegative, Place, FinalizeFree, ReadOrder, Advance, Reverse, CreatePayment, Finalize, Compensate, DropPayment,
      RequestRefund, Clear, Settle, Ship, Deliver, EditCart, EditPromo, Adjust, TopUp, EnsureLevel;
    match e
    case DoPlace(c, o) => PlaceNonNegative(s, c, o);
    case DoFinalizeFree(o) =>
      FreeBatches(s, o);
      OneBatchNonNegative(s, o, FinalizeFree(s, o).db.levels);
    case DoCancel(o, row) =>
      ReverseBatches(s, o, row, ToCancelled);
      OneBatchNonNegative(s, o, Reverse(s, o, row, ToCancelled).db.levels);
    case DoExpire(o, row) =>
      ReverseBatches(s, o, row, ToExpired);
      OneBatchNonNegative(s, o, Reverse(s, o, row, ToExpired).db.levels);
    case DoFinalize(p, o) =>
      FinalizeBatches(s, p, o);
      OneBatchNonNegative(s, o, Finalize(s, p, o).db.levels);
    case DoSettle(p, o) =>
      SettleBatches(s, p, o);
      OneBatchNonNegative(s, o, Settle(s, p, o).db.levels);
    case _ =>
      if Relevels(e) {
        RelevelsNonNegative(s, e);
      } else {
        LevelsStay(s, e);
      }
  }

  // ---- runs ----

  lemma {:induction false} LedgerAlways(es: seq<Step>)
    requires Legal(EMPTY, es)
    ensures Ledger(Run(EMPTY, es)) && NonNegative(Run(EMPTY, es).db.levels)
    decreases |es|
  {
    hide Core, Next, Enabled;
    if es != [] {
      LedgerAlways(es[..|es| - 1]);
      CoreAlways(es[..|es| - 1]);
      StepLedger(Run(EMPTY, es[..|es| - 1]), es[|es| - 1]);
      StepNonNegative(Run(EMPTY, es[..|es| - 1]), es[|es| - 1]);
    }
  }
}
