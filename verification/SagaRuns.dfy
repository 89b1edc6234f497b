/** Runs of the saga: any interleaving of the services' transactions, each acting on rows read
    at any earlier moment. */
module SagaRuns {
  import opened OrderState
  import opened Inventory
  import opened Cart
  import opened Saga
  import opened SagaInvariant
  import opened SagaCore
  import opened SagaStock
  import opened SagaPlace
  import P = Promotion

  datatype Step =
    | DoPlace(c: Checkout, o: OrderId)
    | DoFinalizeFree(o: OrderId)
    | DoRead(o: OrderId)
    | DoAdvance(o: OrderId, t: Transition)
    | DoCancel(o: OrderId, row: Order)
    | DoExpire(o: OrderId, row: Order)
    | DoCreatePayment(p: PaymentId, o: OrderId, row: Order)
    | DoFinalize(p: PaymentId, o: OrderId)
    | DoCompensate(p: PaymentId, o: OrderId)
    | DoDropPayment(p: PaymentId)
    | DoRequestRefund(p: PaymentId)
    | DoClear(p: PaymentId)
    | DoSettle(p: PaymentId, o: OrderId)
    | DoShip(o: OrderId)
    | DoDeliver(o: OrderId)
    | DoAdjust(product: ProductId, n: int)
    | DoTopUp(product: ProductId, n: int)
    | DoEnsureLevel(product: ProductId)
    | DoEditCart(u: UserId, lines: seq<Line>)
    | DoEditPromo(code: P.Code, promo: P.Promo)

  function Next(s: State, e: Step): State {
    match e
    case DoPlace(c, o) => Place(s, c, o)
    case DoFinalizeFree(o) => FinalizeFree(s, o)
    case DoRead(o) => ReadOrder(s, o)
    case DoAdvance(o, t) => Advance(s, o, t)
    case DoCancel(o, row) => Reverse(s, o, row, ToCancelled)
    case DoExpire(o, row) => Reverse(s, o, row, ToExpired)
    case DoCreatePayment(p, o, row) => CreatePayment(s, p, o, row.total)
    case DoFinalize(p, o) => Finalize(s, p, o)
    case DoCompensate(p, o) => Compensate(s, p, o)
    case DoDropPayment(p) => DropPayment(s, p)
    case DoRequestRefund(p) => RequestRefund(s, p)
    case DoClear(p) => Clear(s, p)
    case DoSettle(p, o) => Settle(s, p, o)
    case DoShip(o) => Ship(s, o)
    case DoDeliver(o) => Deliver(s, o)
    case DoAdjust(product, n) => Adjust(s, product, n)
    case DoTopUp(product, n) => TopUp(s, product, n)
    case DoEnsureLevel(product) => EnsureLevel(s, product)
    case DoEditCart(u, lines) => EditCart(s, u, lines)
    case DoEditPromo(code, promo) => EditPromo(s, code, promo)
  }

  /** What the callers guarantee: new ids are fresh, a row acted on was read before, a payment
      is finalized for its own order, a refund job was enqueued and its payment was found
      refundable, and cart lines have positive quantities. Nothing is assumed about time. */
  predicate Enabled(s: State, e: Step) {
    match e
    case DoPlace(c, o) => o !in s.db.orders
    case DoAdvance(o, t) => Plain(t)
    case DoCancel(o, row) => Snap(o, row) in s.h.snaps
    case DoExpire(o, row) => Snap(o, row) in s.h.snaps
    case DoCreatePayment(p, o, row) => Snap(o, row) in s.h.snaps && p !in s.db.payments
    case DoFinalize(p, o) => p in s.db.payments && s.db.payments[p].order == o
    case DoCompensate(p, o) => p in s.db.payments && s.db.payments[p].order == o
    case DoSettle(p, o) => Job(p, o) in s.db.jobs && p in s.h.cleared
    case DoEditCart(u, lines) => forall l | l in lines :: l.quantity > 0
    case _ => true
  }

  function Run(s: State, es: seq<Step>): State {
    if es == [] then s else Next(Run(s, es[..|es| - 1]), es[|es| - 1])
  }

  predicate Legal(s: State, es: seq<Step>) {
    es != [] ==> Legal(s, es[..|es| - 1]) && Enabled(Run(s, es[..|es| - 1]), es[|es| - 1])
  }

  /** The step is not a cancel that commits the wrong restore. */
  predicate Careful(s: State, e: Step) {
    e.DoCancel? ==> Harmless(s, e.o, e.row, ToCancelled)
  }

  predicate AllCareful(s: State, es: seq<Step>) {
    es != [] ==> AllCareful(s, es[..|es| - 1]) && Careful(Run(s, es[..|es| - 1]), es[|es| - 1])
  }

  /** Every cancel acts on the row as it then is, as if it had been read in the same instant. */
  predicate AllFresh(s: State, es: seq<Step>) {
    es != [] ==>
      var before, e := Run(s, es[..|es| - 1]), es[|es| - 1];
      AllFresh(s, es[..|es| - 1]) && (e.DoCancel? && e.o in before.db.orders ==> e.row == before.db.orders[e.o])
  }

  lemma {:induction false} FreshIsCareful(s: State, es: seq<Step>)
    requires AllFresh(s, es)
    ensures AllCareful(s, es)
    decreases |es|
  {
    hide Next, CanRestore, QuantitiesOf, RestoreFor;
    if es != [] {
      FreshIsCareful(s, es[..|es| - 1]);
    }
  }

  lemma {:induction false} Append(s: State, es: seq<Step>, more: seq<Step>)
    requires Legal(s, es) && Legal(Run(s, es), more)
    ensures Legal(s, es + more) && Run(s, es + more) == Run(Run(s, es), more)
    decreases |more|
  {
    hide Next, Enabled;
    if more == [] {
      assert es + more == es;
    } else {
      Append(s, es, more[..|more| - 1]);
      assert (es + more)[..|es + more| - 1] == es + more[..|more| - 1];
    }
  }

  lemma One(s: State, e: Step)
    requires Enabled(s, e)
    ensures Legal(s, [e]) && Run(s, [e]) == Next(s, e)
  {
    hide Next, Enabled;
    assert [e][..0] == [];
  }

  lemma Nothing(s: State)
    ensures Legal(s, []) && Run(s, []) == s
  {
  }

  /** A run and one more step. */
  lemma Then(s: State, es: seq<Step>, e: Step)
    requires Legal(s, es) && Enabled(Run(s, es), e)
    ensures Legal(s, es + [e]) && Run(s, es + [e]) == Next(Run(s, es), e)
  {
    hide Next, Enabled, Run, Legal;
    One(Run(s, es), e);
    Append(s, es, [e]);
  }

  // ---- one step ----

  lemma EditCore(s: State, e: Step)
    requires Core(s) && Enabled(s, e) && (e.DoEditCart? || e.DoEditPromo?)
    ensures Core(Next(s, e))
  {
    hide OrderCore, PayCore, DispatchOk;
    if e.DoEditPromo? {
      if e.code !in s.db.promos {
        assert P.Holders(s.db.usages, e.code) == {};
      }
    }
  }

  lemma EditStock(s: State, e: Step)
    requires Stock(s) && (e.DoEditCart? || e.DoEditPromo?)
    ensures Stock(Next(s, e))
  {
    hide Stock;
    SameStock(s, Next(s, e));
  }

  lemma StepCore(s: State, e: Step)
    requires Core(s) && Enabled(s, e)
    ensures Core(Next(s, e))
  {
    hide Core, Place, FinalizeFree, ReadOrder, Advance, Reverse, CreatePayment, Finalize, Compensate, DropPayment,
      RequestRefund, Clear, Settle, Ship, Deliver, EditCart, EditPromo, Relevel;
    match e
    case DoPlace(c, o) => PlaceCore(s, c, o);
    case DoFinalizeFree(o) => FinalizeFreeCore(s, o);
    case DoRead(o) => ReadOrderCore(s, o);
    case DoAdvance(o, t) => CasCore(s, o, t);
    case DoCancel(o, row) => ReverseCore(s, o, row, ToCancelled);
    case DoExpire(o, row) => ReverseCore(s, o, row, ToExpired);
    case DoCreatePayment(p, o, row) => SnapAt(s, o, row); CreatePaymentCore(s, p, o, row.total);
    case DoFinalize(p, o) => FinalizeCore(s, p, o);
    case DoCompensate(p, o) => CompensateCore(s, p, o);
    case DoDropPayment(p) => DropPaymentCore(s, p);
    case DoRequestRefund(p) => RequestRefundCore(s, p);
    case DoClear(p) => ClearCore(s, p);
    case DoSettle(p, o) => SettleCore(s, p, o);
    case DoShip(o) => ShipCore(s, o);
    case DoDeliver(o) => ShipCore(s, o);
    case DoAdjust(product, n) => RelevelledBy(s, product, n);
    case DoTopUp(product, n) => RelevelledBy(s, product, n);
    case DoEnsureLevel(product) => RelevelledBy(s, product, 0);
    case DoEditCart(u, lines) => EditCore(s, e);
    case DoEditPromo(code, promo) => EditCore(s, e);
  }

  lemma RelevelledBy(s: State, p: ProductId, n: int)
    requires Core(s)
    ensures Core(Adjust(s, p, n)) && Core(TopUp(s, p, n)) && Core(EnsureLevel(s, p))
  {
    hide Core, Relevel;
    RelevelCore(s, p, Adjusted(s.db.levels, p, n));
    if CanTopUp(s.db.levels, p, n) {
      RelevelCore(s, p, ToppedUp(s.db.levels, p, n));
    }
    RelevelCore(s, p, s.db.levels[p := Level(0, 0)]);
  }

  /** One step keeps stock and ledger right if and only if it is careful. */
  lemma StepStock(s: State, e: Step)
    requires Core(s) && Stock(s) && Enabled(s, e)
    ensures Stock(Next(s, e)) <==> Careful(s, e)
  {
    hide Core, Stock, Place, FinalizeFree, ReadOrder, Advance, Reverse, CreatePayment, Finalize, Compensate, DropPayment,
      RequestRefund, Clear, Settle, Ship, Deliver, EditCart, EditPromo, Adjust, TopUp, EnsureLevel, Harmless;
    match e
    case DoPlace(c, o) => PlaceStock(s, c, o);
    case DoFinalizeFree(o) => FreeStock(s, o);
    case DoAdvance(o, t) => PlainStock(s, o, t);
    case DoCancel(o, row) => ReverseExact(s, o, row, ToCancelled);
    case DoExpire(o, row) => ExpireStock(s, o, row);
    case DoFinalize(p, o) => FinalizeStock(s, p, o);
    case DoCompensate(p, o) => CompensateStock(s, p, o);
    case DoSettle(p, o) => SettleStock(s, p, o);
    case DoShip(o) => ShipStock(s, o);
    case DoDeliver(o) => ShipStock(s, o);
    case DoAdjust(product, n) => AdjustStock(s, product, n);
    case DoTopUp(product, n) => AdjustStock(s, product, n);
    case DoEnsureLevel(product) => AdjustStock(s, product, 0);
    case DoEditCart(u, lines) => EditStock(s, e);
    case DoEditPromo(code, promo) => EditStock(s, e);
    case _ => QuietStock(s, e);
  }

  lemma FreeStock(s: State, o: OrderId)
    requires Core(s) && Stock(s)
    ensures Stock(FinalizeFree(s, o))
  {
    hide Core, Stock, Holds, QuantitiesOf, Inventory.Deducted;
    if Wins(s.db.orders, o, ToPaid) {
      PaidStock(s, o);
    }
  }

  lemma ExpireStock(s: State, o: OrderId, row: Order)
    requires Core(s) && Stock(s) && Snap(o, row) in s.h.snaps
    ensures Stock(Reverse(s, o, row, ToExpired))
  {
    hide Core, Stock, Reverse, RestoreFor, CanRestore, QuantitiesOf;
    ReverseExact(s, o, row, ToExpired);
    if Wins(s.db.orders, o, ToExpired) {
      PayableRowsAreFresh(s, o, row, ToExpired);
    }
  }

  lemma ShipStock(s: State, o: OrderId)
    requires Core(s) && Stock(s)
    ensures Stock(Ship(s, o)) && Stock(Deliver(s, o))
  {
    hide Core, Stock, Advance;
    PlainStock(s, o, ToShipped);
    PlainStock(s, o, ToDelivered);
    SameStock(Advance(s, o, ToShipped), Advance(s, o, ToShipped).(db := Advance(s, o, ToShipped).db.(shipments := s.db.shipments[o := InTransit])));
    SameStock(Advance(s, o, ToDelivered), Advance(s, o, ToDelivered).(db := Advance(s, o, ToDelivered).db.(shipments := s.db.shipments[o := Arrived])));
  }

  lemma QuietStock(s: State, e: Step)
    requires Stock(s)
    requires e.DoRead? || e.DoCreatePayment? || e.DoDropPayment? || e.DoRequestRefund? || e.DoClear?
    ensures Stock(Next(s, e))
  {
    hide Stock, OtherActive;
    StillStocked(s, Next(s, e));
  }

  // ---- runs ----

  lemma EmptyInv()
    ensures Core(EMPTY) && Stock(EMPTY)
  {
  }

  /** Every run keeps the order, payment, coupon and dispatch clauses. */
  lemma {:induction false} CoreAlways(es: seq<Step>)
    requires Legal(EMPTY, es)
    ensures Core(Run(EMPTY, es))
    decreases |es|
  {
    hide Core, Next, Enabled;
    if es == [] {
      EmptyInv();
    } else {
      CoreAlways(es[..|es| - 1]);
      StepCore(Run(EMPTY, es[..|es| - 1]), es[|es| - 1]);
    }
  }

  /** Every run whose cancels are careful keeps stock and ledger right. */
  lemma {:induction false} StockAlways(es: seq<Step>)
    requires Legal(EMPTY, es) && AllCareful(EMPTY, es)
    ensures Core(Run(EMPTY, es)) && Stock(Run(EMPTY, es))
    decreases |es|
  {
    hide Core, Stock, Next, Enabled, Careful;
    CoreAlways(es);
    if es == [] {
      EmptyInv();
    } else {
      StockAlways(es[..|es| - 1]);
      StepStock(Run(EMPTY, es[..|es| - 1]), es[|es| - 1]);
    }
  }
}
