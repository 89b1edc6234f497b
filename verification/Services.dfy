/** The service calls that span several transactions. Each is proved to be a legal run of the
    saga's steps, returned as `es`, so every theorem about runs holds of it; where other calls
    interleave, their steps interleave. */
module Services {
  import opened Common
  import opened OrderState
  import opened Inventory
  import opened Cart
  import opened Saga
  import opened SagaRuns
  import opened SagaInvariant
  import opened SagaCore
  import opened SagaStock
  import opened SagaPlace
  import opened SagaEffects
  import opened Database

  datatype GatewayReply = GatewayError | Approved | AwaitingBuyer | Declined

  datatype WebhookEvent = Succeeded | DidNotSucceed | Unknown

  // ---- what a captured payment comes to ----

  /** What every run with careful cancels keeps. */
  ghost predicate Sound(s: State) {
    Core(s) && Stock(s)
  }

  lemma SoundStep(s: State, e: Step)
    requires Sound(s) && Enabled(s, e) && !e.DoCancel?
    ensures Sound(Next(s, e))
  {
    hide Core, Stock, Next, Enabled;
    StepCore(s, e);
    StepStock(s, e);
  }

  /** The payment succeeded, its order is paid, and the payment's amount is the order's total. */
  predicate PaidFor(db: Db, p: PaymentId, o: OrderId) {
    && p in db.payments && o in db.orders
    && db.payments[p].status.Success? && db.payments[p].order == o && db.payments[p].amount == db.orders[o].total
    && db.orders[o].at == Progress(Paid, true, false)
  }

  /** The money is owed back: a refund job waits and the order cannot be paid any more. */
  predicate OwedBack(db: Db, p: PaymentId, o: OrderId) {
    && p in db.payments && o in db.orders
    && Job(p, o) in db.jobs
    && !db.orders[o].at.status.AwaitingPayment? && !db.orders[o].at.status.PaymentProcessing?
  }

  /** A payment that waits for the gateway. */
  predicate StillOpen(db: Db, p: PaymentId, o: OrderId) {
    p in db.payments && o in db.orders && db.payments[p] == Payment(o, db.orders[o].total, Pending)
  }

  predicate Unpaid(db: Db, o: OrderId) {
    o in db.orders && (db.orders[o].at.status.AwaitingPayment? || db.orders[o].at.status.PaymentProcessing?)
  }

  /** A captured payment that was not settled before pays its order when that is unpaid and the
      database does not fail, and is owed back otherwise. */
  lemma CapturedSettles(s: State, p: PaymentId, o: OrderId, fault: bool)
    requires Sound(s) && p in s.db.payments && s.db.payments[p].order == o
    requires s.db.payments[p].status.Pending? || s.db.payments[p].status.Dropped? || s.db.payments[p].status.RequiresReview?
    ensures Legal(s, FinalizeSteps(s, p, o, fault))
    ensures var db := Run(s, FinalizeSteps(s, p, o, fault)).db;
            if Unpaid(s.db, o) && !fault then PaidFor(db, p, o)
            else OwedBack(db, p, o) && (s.db.payments[p].status.Dropped? || db.payments[p].status.RequiresReview?)
  {
    hide Core, Stock, Finalize, FinalizeOutcome, Compensate, Legal, Run, Clash, Shifted;
    PaymentAt(s, p);
    One(s, DoCompensate(p, o));
    One(s, DoFinalize(p, o));
    CompensationOwes(s, p, o);
    if !fault {
      if Unpaid(s.db, o) {
        FinalizePays(s, p, o);
        PaidNow(s, Finalize(s, p, o), p, o);
      } else {
        FinalizeParks(s, p, o);
        if FinalizeOutcome(s, p, o).Aborted? {
          Then(s, [DoFinalize(p, o)], DoCompensate(p, o));
          assert [DoFinalize(p, o)] + [DoCompensate(p, o)] == FinalizeSteps(s, p, o, fault);
        }
      }
    }
  }

  lemma PaidNow(s: State, s1: State, p: PaymentId, o: OrderId)
    requires Core(s) && p in s.db.payments && s.db.payments[p].order == o && o in s.db.orders
    requires s1.db.payments == s.db.payments[p := s.db.payments[p].(status := Success)]
    requires s1.db.orders == Progressed(s.db.orders, o, Progress(Paid, true, false))
    ensures PaidFor(s1.db, p, o)
  {
    hide Core;
    PaymentAt(s, p);
  }

  lemma CompensationOwes(s: State, p: PaymentId, o: OrderId)
    requires Core(s) && p in s.db.payments && s.db.payments[p].order == o
    requires s.db.payments[p].status.Pending? || s.db.payments[p].status.Dropped? || s.db.payments[p].status.RequiresReview?
    ensures var db := Compensate(s, p, o).db;
            OwedBack(db, p, o) && (s.db.payments[p].status.Dropped? || db.payments[p].status.RequiresReview?)
  {
    hide Core, Compensate, Clash;
    PaymentAt(s, p);
    CompensateExactly(s, p, o);
    if !s.db.payments[p].status.Dropped? {
      NoClash(s, p);
    }
  }

  // ---- payment.Service ----

  /** The steps of FinalizeSuccess and, when it fails otherwise than by having nothing left to
      do, of the compensating refund. A fault inside the first transaction rolls it back. */
  function FinalizeSteps(s: State, p: PaymentId, o: OrderId, fault: bool): seq<Step> {
    if fault then [DoCompensate(p, o)]
    else if FinalizeOutcome(s, p, o) in {AlreadyDone, Completed, Parked} then [DoFinalize(p, o)]
    else [DoFinalize(p, o), DoCompensate(p, o)]
  }

  /** `fault` stands for the database failing inside the first transaction. */
  method FinalizeOrCompensate(store: Store, p: PaymentId, fault: bool) returns (ghost es: seq<Step>)
    requires p in store.db.payments
    modifies store
    ensures Legal(old(store.Now()), es) && store.Now() == Run(old(store.Now()), es)
    ensures es == FinalizeSteps(old(store.Now()), p, old(store.db).payments[p].order, fault)
    ensures var pay := old(store.db).payments[p];
            Sound(old(store.Now())) && (pay.status.Pending? || pay.status.Dropped? || pay.status.RequiresReview?) ==>
              if Unpaid(old(store.db), pay.order) && !fault then PaidFor(store.db, p, pay.order) else OwedBack(store.db, p, pay.order)
  {
    hide Finalize, FinalizeOutcome, Compensate, Legal, Run, Sound, PaidFor, OwedBack, Unpaid;
    ghost var s0 := store.Now();
    ghost var st := store.db.payments[p].status;
    if Sound(s0) && (st.Pending? || st.Dropped? || st.RequiresReview?) {
      CapturedSettles(s0, p, store.db.payments[p].order, fault);
    }
    var o := store.db.payments[p].order;
    var e := Some(DatabaseError);
    Nothing(s0);
    es := [];
    if !fault {
      e := store.FinalizeSuccess(p, o);
      Then(s0, es, DoFinalize(p, o));
      es := es + [DoFinalize(p, o)];
    }
    if e.Some? && e != Some(AlreadyFinalized) {
      FailedFinalizeIsSilent(s0, p, o);
      store.CompensateRefund(p, o);
      Then(s0, es, DoCompensate(p, o));
      es := es + [DoCompensate(p, o)];
    }
  }

  /** A finalization that returns an error has committed nothing. */
  lemma FailedFinalizeIsSilent(s: State, p: PaymentId, o: OrderId)
    ensures !FinalizeOutcome(s, p, o).Completed? && !FinalizeOutcome(s, p, o).Parked? ==> Finalize(s, p, o) == s
  {
    hide FinalizeOutcome;
  }

  predicate HasActive(payments: map<PaymentId, Payment>, o: OrderId) {
    exists q | q in payments :: payments[q].order == o && IsActive(payments[q].status)
  }

  /** What a charge comes to, given whether its insert loses to a concurrent one. */
  function ChargeResult(s: State, o: OrderId, reply: GatewayReply, loses: bool): Result<bool> {
    if loses && !HasActive(s.db.payments, o) then Err(DatabaseError)
    else
      match reply
      case GatewayError => Err(GatewayFailed)
      case Declined => Err(PaymentDeclined)
      case Approved => Ok(true)
      case AwaitingBuyer => Ok(false)
  }

  /** The steps of a charge of payment `p`: create it when the order has no active one, then act
      on the gateway's reply. */
  function ChargeSteps(s: State, o: OrderId, row: Order, p: PaymentId, reply: GatewayReply, loses: bool, fault: bool): seq<Step> {
    if HasActive(s.db.payments, o) then
      if reply.Approved? then FinalizeSteps(s, p, o, fault) else []
    else if loses then []
    else
      [DoCreatePayment(p, o, row)] +
      if reply.Approved? then FinalizeSteps(CreatePayment(s, p, o, row.total), p, o, fault) else []
  }

  /** The payment a charge uses: an active one of the order, or else the new one. */
  predicate Charges(payments: map<PaymentId, Payment>, o: OrderId, newId: PaymentId, p: PaymentId) {
    if HasActive(payments, o) then p in payments && payments[p].order == o && IsActive(payments[p].status)
    else p == newId
  }

  /** What a charge leaves. An approved one pays an unpaid order unless the database fails, and is
      owed back otherwise; any other leaves the payment open, or under review when the order had
      one so. An insert that loses leaves no payment. */
  predicate Charged(before: Db, after: Db, o: OrderId, p: PaymentId, reply: GatewayReply, loses: bool, fault: bool) {
    if loses && !HasActive(before.payments, o) then after == before
    else if reply.Approved? then if Unpaid(before, o) && !fault then PaidFor(after, p, o) else OwedBack(after, p, o)
    else if Unpaid(before, o) then StillOpen(after, p, o) && after.orders == before.orders
    else p in after.payments && after.payments[p].order == o && after.orders == before.orders
  }

  lemma ChargeSettles(s: State, o: OrderId, row: Order, newId: PaymentId, p: PaymentId, reply: GatewayReply, loses: bool, fault: bool)
    requires Sound(s) && Snap(o, row) in s.h.snaps && newId !in s.db.payments && Charges(s.db.payments, o, newId, p)
    ensures Legal(s, ChargeSteps(s, o, row, p, reply, loses, fault))
    ensures Charged(s.db, Run(s, ChargeSteps(s, o, row, p, reply, loses, fault)).db, o, p, reply, loses, fault)
  {
    hide Legal, Run, FinalizeSteps, CreatePayment, Charged;
    Nothing(s);
    if HasActive(s.db.payments, o) {
      ReusedSettles(s, o, row, p, reply, loses, fault);
    } else if loses {
      LostLeaves(s.db, o, p, reply, fault);
    } else {
      CreatedSettles(s, o, row, p, reply, fault);
    }
  }

  lemma LostLeaves(db: Db, o: OrderId, p: PaymentId, reply: GatewayReply, fault: bool)
    requires !HasActive(db.payments, o)
    ensures Charged(db, db, o, p, reply, true, fault)
  {
  }

  lemma ReusedSettles(s: State, o: OrderId, row: Order, p: PaymentId, reply: GatewayReply, loses: bool, fault: bool)
    requires Sound(s) && HasActive(s.db.payments, o)
    requires p in s.db.payments && s.db.payments[p].order == o && IsActive(s.db.payments[p].status)
    ensures Legal(s, ChargeSteps(s, o, row, p, reply, loses, fault))
    ensures Charged(s.db, Run(s, ChargeSteps(s, o, row, p, reply, loses, fault)).db, o, p, reply, loses, fault)
  {
    hide Core, Stock, FinalizeSteps, CreatePayment, Legal, Run, PaidFor, OwedBack;
    Nothing(s);
    PaymentAt(s, p);
    if reply.Approved? {
      CapturedSettles(s, p, o, fault);
    }
  }

  lemma CreatedSettles(s: State, o: OrderId, row: Order, p: PaymentId, reply: GatewayReply, fault: bool)
    requires Sound(s) && Snap(o, row) in s.h.snaps && p !in s.db.payments && !HasActive(s.db.payments, o)
    ensures Legal(s, ChargeSteps(s, o, row, p, reply, false, fault))
    ensures Charged(s.db, Run(s, ChargeSteps(s, o, row, p, reply, false, fault)).db, o, p, reply, false, fault)
  {
    hide Core, Stock, CreatePayment, FinalizeSteps, Legal, Run, PaidFor, OwedBack, Clash, HasActive;
    CreateExactly(s, p, o, row);
    NoneClash(s.db.payments, p, o);
    var s1 := CreatePayment(s, p, o, row.total);
    One(s, DoCreatePayment(p, o, row));
    CreatedSound(s, p, o, row);
    if reply.Approved? {
      CapturedSettles(s1, p, o, fault);
      Append(s, [DoCreatePayment(p, o, row)], FinalizeSteps(s1, p, o, fault));
    } else {
      assert [DoCreatePayment(p, o, row)] + [] == [DoCreatePayment(p, o, row)];
    }
  }

  lemma NoneClash(payments: map<PaymentId, Payment>, p: PaymentId, o: OrderId)
    requires !HasActive(payments, o)
    ensures !Clash(payments, p, o)
  {
    if q :| q in payments && q != p && payments[q].order == o &&
            (payments[q].status.Pending? || payments[q].status.InProgress? || payments[q].status.RequiresReview?) {
      assert IsActive(payments[q].status);
    }
  }

  lemma CreatedSound(s: State, p: PaymentId, o: OrderId, row: Order)
    requires Sound(s) && Snap(o, row) in s.h.snaps && p !in s.db.payments
    ensures Sound(CreatePayment(s, p, o, row.total))
  {
    hide Sound, CreatePayment;
    SoundStep(s, DoCreatePayment(p, o, row));
  }

  /** Charge, for an order row its caller read before; `newId` is the id of a payment row the
      charge may create. Another charge may insert between the read and the insert, which then
      `loses` to the unique index. */
  method Charge(store: Store, o: OrderId, row: Order, newId: PaymentId, reply: GatewayReply, loses: bool, fault: bool)
    returns (r: Result<bool>, p: PaymentId, ghost es: seq<Step>)
    requires Snap(o, row) in store.h.snaps && newId !in store.db.payments
    modifies store
    ensures Legal(old(store.Now()), es) && store.Now() == Run(old(store.Now()), es)
    ensures Charges(old(store.db).payments, o, newId, p)
    ensures es == ChargeSteps(old(store.Now()), o, row, p, reply, loses, fault)
    ensures r == ChargeResult(old(store.Now()), o, reply, loses)
    ensures !r.Ok? || !r.value ==> store.db.orders == old(store.db).orders && store.db.levels == old(store.db).levels
    ensures Sound(old(store.Now())) ==> Charged(old(store.db), store.db, o, p, reply, loses, fault)
  {
    hide CreatePayment, Legal, Run, OtherActive, FinalizeSteps, Sound, Charged;
    ghost var s0 := store.Now();
    Nothing(s0);
    es := [];
    p := newId;
    var active := store.ActivePayment(o);
    if active.Some? {
      p := active.value;
    }
    if Sound(s0) {
      ChargeSettles(s0, o, row, newId, p, reply, loses, fault);
    }
    if active.None? {
      if loses {
        return Err(DatabaseError), p, es;
      }
      NoneActive(store.db.payments, newId, o);
      Inserted(s0, newId, o, row.total);
      var e := store.InsertPayment(newId, o, row.total);
      Then(s0, es, DoCreatePayment(newId, o, row));
      es := es + [DoCreatePayment(newId, o, row)];
    }
    match reply
    case GatewayError => return Err(GatewayFailed), p, es;
    case Declined => return Err(PaymentDeclined), p, es;
    case AwaitingBuyer => return Ok(false), p, es;
    case Approved =>
      ghost var more := FinalizeOrCompensate(store, p, fault);
      Append(s0, es, more);
      return Ok(true), p, es + more;
  }

  lemma NoneActive(payments: map<PaymentId, Payment>, p: PaymentId, o: OrderId)
    requires !HasActive(payments, o)
    ensures !OtherActive(payments, p, o)
  {
  }

  lemma Inserted(s: State, p: PaymentId, o: OrderId, amount: Money)
    requires p !in s.db.payments && !OtherActive(s.db.payments, p, o)
    ensures var s1 := CreatePayment(s, p, o, amount);
            p in s1.db.payments && s1.db.payments[p].order == o && s1.db.orders == s.db.orders && s1.db.levels == s.db.levels
  {
  }

  /** The steps of a cancel that reads the row and acts on it. */
  function CancelSteps(s: State, o: OrderId): seq<Step> {
    if o !in s.db.orders then [] else [DoRead(o), DoCancel(o, s.db.orders[o])]
  }

  /** What an event does to a payment that was not settled before. */
  predicate Heard(before: Db, after: Db, p: PaymentId, event: WebhookEvent, fault: bool)
    requires p in before.payments
  {
    var pay := before.payments[p];
    pay.status.Pending? || pay.status.Dropped? ==>
      match event
      case Unknown => after == before
      case Succeeded => if Unpaid(before, pay.order) && !fault then PaidFor(after, p, pay.order) else OwedBack(after, p, pay.order)
      case DidNotSucceed =>
        && p in after.payments && after.payments[p] == pay.(status := Dropped)
        && (Unpaid(before, pay.order) ==> pay.order in after.orders && after.orders[pay.order].at.status.Cancelled?)
  }

  lemma DropKeepsOrders(s: State, p: PaymentId)
    ensures DropPayment(s, p).db == s.db.(payments := DropPayment(s, p).db.payments)
    ensures DropPayment(s, p).h == s.h
  {
  }

  lemma DroppedSound(s: State, p: PaymentId)
    requires Sound(s) && p in s.db.payments && !IsCaptured(s.db.payments[p].status)
    ensures var s1 := DropPayment(s, p);
            && Sound(s1) && s.db.payments[p].order in s1.db.orders
            && p in s1.db.payments && s1.db.payments[p] == s.db.payments[p].(status := Dropped)
  {
    hide Core, Stock, DropPayment;
    PaymentAt(s, p);
    DropExactly(s, p);
    SoundStep(s, DoDropPayment(p));
  }

  lemma DroppedHeard(s: State, s1: State, s2: State, p: PaymentId, e: Option<Error>, fault: bool)
    requires p in s.db.payments && p in s1.db.payments && s1.db.payments[p] == s.db.payments[p].(status := Dropped)
    requires s1.db.orders == s.db.orders && Cancels(s1, s2, s.db.payments[p].order, e)
    ensures Heard(s.db, s2.db, p, DidNotSucceed, fault)
  {
    hide Shifted, CouponBack;
  }

  /** HandleWebhook, past the signature check, for the payment its payload names. A replayed
      event of a captured payment changes nothing. */
  method HandleWebhook(store: Store, p: PaymentId, event: WebhookEvent, fault: bool) returns (ghost es: seq<Step>)
    modifies store
    ensures Legal(old(store.Now()), es) && store.Now() == Run(old(store.Now()), es)
    ensures es == if p !in old(store.db).payments || IsCaptured(old(store.db).payments[p].status) then []
                  else
                    var o := old(store.db).payments[p].order;
                    match event
                    case Unknown => []
                    case Succeeded => FinalizeSteps(old(store.Now()), p, o, fault)
                    case DidNotSucceed => [DoDropPayment(p)] + CancelSteps(old(store.Now()), o)
    ensures Sound(old(store.Now())) && p in old(store.db).payments ==> Heard(old(store.db), store.db, p, event, fault)
  {
    hide Legal, Run, FinalizeSteps, Sound, DropPayment, Cancels, PaidFor, OwedBack;
    ghost var s0 := store.Now();
    Nothing(s0);
    es := [];
    if p !in store.db.payments {
      return;
    }
    var st := store.db.payments[p].status;
    if st.Success? || st.PaidBack? || st.RequiresReview? {
      return;
    }
    match event
    case Unknown => return;
    case Succeeded => es := FinalizeOrCompensate(store, p, fault);
    case DidNotSucceed =>
      var o := store.db.payments[p].order;
      DropKeepsOrders(s0, p);
      if Sound(s0) {
        DroppedSound(s0, p);
      }
      var dropped := store.DropPending(p);
      Then(s0, es, DoDropPayment(p));
      es := es + [DoDropPayment(p)];
      ghost var s1 := store.Now();
      var e, more := CancelUnpaid(store, o);
      Append(s0, es, more);
      es := es + more;
      if Sound(s0) {
        DroppedHeard(s0, s1, store.Now(), p, e, fault);
      }
  }

  /** SettleRefund, as the refund worker calls it for a job that was enqueued. */
  method SettleRefund(store: Store, p: PaymentId, o: OrderId, refunded: bool) returns (e: Option<Error>, ghost es: seq<Step>)
    requires Job(p, o) in store.db.jobs
    modifies store
    ensures Legal(old(store.Now()), es) && store.Now() == Run(old(store.Now()), es)
    ensures es == if p in old(store.db).payments && IsRefundable(old(store.db).payments[p].status) && refunded
                  then [DoClear(p), DoSettle(p, o)] else [DoClear(p)]
    ensures e == if p !in old(store.db).payments then Some(NotFound)
                 else if !IsRefundable(old(store.db).payments[p].status) then Some(NotRefundable)
                 else if !refunded then Some(GatewayFailed)
                 else if o !in old(store.db).orders then Some(NotFound)
                 else None
    ensures |es| == 1 ==> store.db == old(store.db)
    ensures Sound(old(store.Now())) && |es| == 2 ==> RefundMade(old(store.Now()), store.Now(), p, o)
  {
    hide Settle, Legal, Run, Sound, RefundMade;
    ghost var s0 := store.Now();
    Nothing(s0);
    e := store.CheckRefundable(p);
    Then(s0, [], DoClear(p));
    es := [] + [DoClear(p)];
    if e.Some? {
      return;
    }
    if !refunded {
      return Some(GatewayFailed), es;
    }
    if Sound(s0) {
      SettlesAfter(s0, p, o);
    }
    e := store.SettleTx(p, o);
    Then(s0, es, DoSettle(p, o));
    es := es + [DoSettle(p, o)];
  }

  /** The refundable check changes no table, so the settle after it acts on the same ones. */
  lemma SettlesAfter(s: State, p: PaymentId, o: OrderId)
    requires Sound(s) && Job(p, o) in s.db.jobs && p in s.db.payments && IsRefundable(s.db.payments[p].status)
    ensures RefundMade(s, Settle(Clear(s, p), p, o), p, o)
  {
    hide Sound, Settle, RefundMade;
    SoundStep(s, DoClear(p));
    ClearedSettles(Clear(s, p), p, o);
    SameTables(s, Clear(s, p), Settle(Clear(s, p), p, o), p, o);
  }

  lemma ClearedSettles(s: State, p: PaymentId, o: OrderId)
    requires Sound(s) && Job(p, o) in s.db.jobs && p in s.h.cleared
    ensures RefundMade(s, Settle(s, p, o), p, o)
  {
    hide Core, Stock, Settle, RefundMade;
    SettleExactly(s, p, o);
  }

  /** RefundMade reads the tables only. */
  lemma SameTables(s: State, t: State, s1: State, p: PaymentId, o: OrderId)
    requires s.db == t.db && RefundMade(t, s1, p, o)
    ensures RefundMade(s, s1, p, o)
  {
    hide Shifted;
  }

  // ---- order.Service ----

  /** The steps of a placement: none for a replayed key, and a free order is finalized at once. */
  function PlaceSteps(s: State, c: Checkout, o: OrderId): seq<Step> {
    if SameKey(s.db.orders, c.user, c.key) then []
    else
      match DraftOf(s.db, c, o)
      case Err(_) => [DoPlace(c, o)]
      case Ok(d) => if d.row.total.amount == 0 then [DoPlace(c, o), DoFinalizeFree(o)] else [DoPlace(c, o)]
  }

  /** Place: the order an idempotency key already names, or a new one; a free order is finalized
      at once. */
  method Place(store: Store, c: Checkout, o: OrderId) returns (r: Result<(OrderId, bool)>, ghost es: seq<Step>)
    requires o !in store.db.orders
    modifies store
    ensures Legal(old(store.Now()), es) && store.Now() == Run(old(store.Now()), es)
    ensures es == PlaceSteps(old(store.Now()), c, o)
    ensures SameKey(old(store.db).orders, c.user, c.key) ==>
              && es == [] && r.Ok? && !r.value.1 && r.value.0 in store.db.orders
              && store.db.orders[r.value.0].user == c.user && store.db.orders[r.value.0].key == c.key
    ensures !SameKey(old(store.db).orders, c.user, c.key) ==>
              match DraftOf(old(store.db), c, o)
              case Err(x) => r == Err(x) && store.Now() == old(store.Now())
              case Ok(d) =>
                && r == Ok((o, true)) && o in store.db.orders && store.db.orders[o].total == d.row.total
                && store.Now() == (if d.row.total.amount == 0 then FinalizeFree(Saga.Place(old(store.Now()), c, o), o)
                                   else Saga.Place(old(store.Now()), c, o))
  {
    hide DraftOf, FinalizeFree, Legal, Run;
    ghost var s0 := store.Now();
    PlacedReads(s0, c, o);
    Nothing(s0);
    es := [];
    if k :| k in store.db.orders && store.db.orders[k].user == c.user && store.db.orders[k].key == c.key {
      return Ok((k, false)), es;
    }
    var e := store.PlaceOrder(c, o);
    Then(s0, es, DoPlace(c, o));
    es := es + [DoPlace(c, o)];
    if e.Some? {
      return Err(e.value), es;
    }
    if store.db.orders[o].total.amount == 0 {
      FreeKeeps(store.Now(), o);
      var freeErr := store.FinalizeFreeOrder(o);
      Then(s0, es, DoFinalizeFree(o));
      es := es + [DoFinalizeFree(o)];
    }
    return Ok((o, true)), es;
  }

  lemma FreeKeeps(s: State, o: OrderId)
    requires o in s.db.orders
    ensures o in FinalizeFree(s, o).db.orders && FinalizeFree(s, o).db.orders[o].total == s.db.orders[o].total
    ensures FinalizeFree(s, o).db.payments == s.db.payments
  {
    hide Holds, QuantitiesOf, Inventory.Deducted;
  }

  /** A cancel of the row as it is commits: the status allows it and the restore is not refused. */
  predicate CancelCommits(db: Db, o: OrderId) {
    Wins(db.orders, o, ToCancelled) &&
    CanRestore(db.levels, QuantitiesOf(db.orders[o].items), RestoreFor(db.orders[o].items, db.orders[o].at))
  }

  lemma CommitsAfterRead(db: Db, o: OrderId)
    ensures CancelCommits(db, o) <==>
            Wins(db.orders, o, ToCancelled) &&
            CanRestore(db.levels, QuantitiesOf(db.orders[o].items), RestoreFor(db.orders[o].items, db.orders[o].at))
  {
  }

  /** What a cancel that reads the order first comes to: an unpaid or failed order is cancelled with
      its stock and coupon given back, any other is refused without a change. */
  ghost predicate Cancels(s: State, s1: State, o: OrderId, e: Option<Error>) {
    && o in s.db.orders
    && var at := s.db.orders[o].at;
       if at.status.AwaitingPayment? || at.status.PaymentProcessing? || at.status.FulfillmentFailed? then
         e.None? && Undone(s, s1, o, Cancelled, !at.reversed) && s1.db.payments == s.db.payments && s1.db.jobs == s.db.jobs
       else e == Some(BadRequest) && s1.db == s.db
  }

  lemma CancelsAfterRead(s: State, o: OrderId)
    requires Sound(s) && o in s.db.orders
    ensures Cancels(s, Reverse(ReadOrder(s, o), o, s.db.orders[o], ToCancelled), o,
                    if CancelCommits(s.db, o) then None else Some(BadRequest))
  {
    hide Core, Stock, Reverse, Undone, QuantitiesOf, CanRestore;
    var s1 := ReadOrder(s, o);
    SoundStep(s, DoRead(o));
    CancelExactly(s1, o, s.db.orders[o]);
    OwnHold(s, o);
    UndoneAlike(s, s1, Reverse(s1, o, s.db.orders[o], ToCancelled), o);
  }

  /** Undone reads the tables only. */
  lemma UndoneAlike(s: State, t: State, s1: State, o: OrderId)
    requires s.db == t.db
    ensures forall st, back: bool | Undone(t, s1, o, st, back) :: Undone(s, s1, o, st, back)
  {
    hide Shifted;
  }

  method CancelByUser(store: Store, user: UserId, o: OrderId) returns (e: Option<Error>, ghost es: seq<Step>)
    modifies store
    ensures Legal(old(store.Now()), es) && store.Now() == Run(old(store.Now()), es)
    ensures o !in old(store.db).orders || old(store.db).orders[o].user != user ==> e == Some(NotFound) && store.db == old(store.db)
    ensures o in old(store.db).orders && old(store.db).orders[o].user == user && old(store.db).orders[o].at.status.PaymentProcessing? ==>
              e == Some(OrderCharging) && store.db == old(store.db)
    ensures es == if o !in old(store.db).orders then []
                  else
                    var row := old(store.db).orders[o];
                    if row.user != user || row.at.status.PaymentProcessing? then [DoRead(o)] else [DoRead(o), DoCancel(o, row)]
    ensures |es| == 2 ==> (e.None? <==> CancelCommits(old(store.db), o))
    ensures Sound(old(store.Now())) && |es| == 2 ==> Cancels(old(store.Now()), store.Now(), o, e)
  {
    hide Reverse, Legal, Run, Sound, CancelCommits, Cancels;
    Nothing(store.Now());
    es := [];
    if o !in store.db.orders {
      return Some(NotFound), es;
    }
    ghost var s0 := store.Now();
    var row := store.ReadRow(o);
    Then(s0, es, DoRead(o));
    es := es + [DoRead(o)];
    if row.user != user {
      return Some(NotFound), es;
    }
    if row.at.status.PaymentProcessing? {
      return Some(OrderCharging), es;
    }
    CommitsAfterRead(s0.db, o);
    if Sound(s0) {
      CancelsAfterRead(s0, o);
    }
    e := store.CancelWithReversal(o, row);
    Then(s0, es, DoCancel(o, row));
    es := es + [DoCancel(o, row)];
  }

  method CancelUnpaid(store: Store, o: OrderId) returns (e: Option<Error>, ghost es: seq<Step>)
    modifies store
    ensures Legal(old(store.Now()), es) && store.Now() == Run(old(store.Now()), es)
    ensures es == CancelSteps(old(store.Now()), o)
    ensures e.None? <==> CancelCommits(old(store.db), o)
    ensures o !in old(store.db).orders ==> e == Some(NotFound)
    ensures Sound(old(store.Now())) && o in old(store.db).orders ==> Cancels(old(store.Now()), store.Now(), o, e)
  {
    hide Reverse, Legal, Run, Sound, CancelCommits, Cancels;
    CommitsAfterRead(store.db, o);
    ghost var s0 := store.Now();
    Nothing(s0);
    es := [];
    if o !in store.db.orders {
      return Some(NotFound), es;
    }
    var row := store.ReadRow(o);
    Then(s0, es, DoRead(o));
    es := es + [DoRead(o)];
    if Sound(s0) {
      CancelsAfterRead(s0, o);
    }
    e := store.CancelWithReversal(o, row);
    Then(s0, es, DoCancel(o, row));
    es := es + [DoCancel(o, row)];
  }

  /** ExpireStale, for the rows its query listed; an order that fails to expire is logged. */
  method ExpireStale(store: Store, listed: seq<Snap>) returns (ghost es: seq<Step>)
    requires forall n | n in listed :: n in store.h.snaps
    modifies store
    ensures Legal(old(store.Now()), es) && store.Now() == Run(old(store.Now()), es)
    ensures es == seq(|listed|, i requires 0 <= i < |listed| => DoExpire(listed[i].order, listed[i].row))
  {
    hide Reverse, Legal, Run;
    ghost var s0 := store.Now();
    Nothing(s0);
    es := [];
    for i := 0 to |listed|
      invariant Legal(s0, es) && store.Now() == Run(s0, es) && store.h.snaps == s0.h.snaps
      invariant es == seq(i, k requires 0 <= k < i => DoExpire(listed[k].order, listed[k].row))
    {
      assert listed[i] in listed;
      ReverseReadsNothing(store.Now(), listed[i].order, listed[i].row, ToExpired);
      var e := store.ExpireOne(listed[i].order, listed[i].row);
      Then(s0, es, DoExpire(listed[i].order, listed[i].row));
      es := es + [DoExpire(listed[i].order, listed[i].row)];
    }
  }

  lemma ReverseReadsNothing(s: State, o: OrderId, r: Order, t: Transition)
    ensures Reverse(s, o, r, t).h.snaps == s.h.snaps
  {
    hide CanRestore, QuantitiesOf, RestoreFor, Restored;
  }

  /** RecoverStale, for the orders its query listed: an order that moved on meanwhile is skipped. */
  method RecoverStale(store: Store, listed: seq<OrderId>) returns (ghost es: seq<Step>)
    modifies store
    ensures Legal(old(store.Now()), es) && store.Now() == Run(old(store.Now()), es)
    ensures es == seq(|listed|, i requires 0 <= i < |listed| => DoAdvance(listed[i], ToAwaitingPayment))
  {
    hide Advance, Legal, Run;
    ghost var s0 := store.Now();
    Nothing(s0);
    es := [];
    for i := 0 to |listed|
      invariant Legal(s0, es) && store.Now() == Run(s0, es)
      invariant es == seq(i, k requires 0 <= k < i => DoAdvance(listed[k], ToAwaitingPayment))
    {
      var won := store.Transit(listed[i], ToAwaitingPayment);
      Then(s0, es, DoAdvance(listed[i], ToAwaitingPayment));
      es := es + [DoAdvance(listed[i], ToAwaitingPayment)];
    }
  }

  /** The transition a direct status change asks for; the other statuses belong to the payment,
      cancel and refund flows. */
  function DirectTransition(to: Status): Option<Transition> {
    match to
    case AwaitingPayment => Some(ToAwaitingPayment)
    case Processing => Some(ToProcessing)
    case Shipped => Some(ToShipped)
    case Delivered => Some(ToDelivered)
    case _ => None
  }

  method ChangeStatus(store: Store, o: OrderId, to: Status) returns (e: Option<Error>, ghost es: seq<Step>)
    modifies store
    ensures Legal(old(store.Now()), es) && store.Now() == Run(old(store.Now()), es)
    ensures e.None? <==> DirectTransition(to).Some? && Wins(old(store.db).orders, o, DirectTransition(to).value)
    ensures e == if !to.AwaitingPayment? && !to.Processing? && !to.Shipped? && !to.Delivered? then Some(BadRequest)
                 else if o !in old(store.db).orders then Some(NotFound)
                 else
                   var from := old(store.db).orders[o].at.status;
                   if || (to.AwaitingPayment? && from.PaymentProcessing?)
                      || (to.Processing? && from.Paid?)
                      || (to.Shipped? && (from.Paid? || from.Processing?))
                      || (to.Delivered? && from.Shipped?)
                   then None else Some(BadRequest)
    ensures e.None? ==> o in store.db.orders && store.db.orders[o].at == old(store.db).orders[o].at.(status := to)
    ensures e.Some? ==> store.db == old(store.db)
  {
    hide Legal, Run;
    ghost var s0 := store.Now();
    Nothing(s0);
    es := [];
    var t := DirectTransition(to);
    if t.None? {
      return Some(BadRequest), es;
    }
    if o !in store.db.orders {
      return Some(NotFound), es;
    }
    var row := store.ReadRow(o);
    Then(s0, es, DoRead(o));
    es := es + [DoRead(o)];
    if !t.value.From(row.at.status) {
      return Some(BadRequest), es;
    }
    var won := store.Transit(o, t.value);
    Then(s0, es, DoAdvance(o, t.value));
    es := es + [DoAdvance(o, t.value)];
    return if won then None else Some(Conflict), es;
  }

  // ---- shipping.Service ----

  /** Create: the order must be paid or processing when it is read. */
  method CreateShipment(store: Store, o: OrderId) returns (e: Option<Error>, ghost es: seq<Step>)
    modifies store
    ensures Legal(old(store.Now()), es) && store.Now() == Run(old(store.Now()), es)
    ensures e == if o !in old(store.db).orders then Some(NotFound)
                 else if !ToShipped.From(old(store.db).orders[o].at.status) then Some(BadRequest)
                 else if o in old(store.db).shipments then Some(Conflict)
                 else None
    ensures es == if o !in old(store.db).orders then []
                  else if !ToShipped.From(old(store.db).orders[o].at.status) then [DoRead(o)]
                  else [DoRead(o), DoShip(o)]
    ensures e.Some? ==> store.db == old(store.db)
  {
    hide Legal, Run;
    ghost var s0 := store.Now();
    Nothing(s0);
    es := [];
    if o !in store.db.orders {
      return Some(NotFound), es;
    }
    var row := store.ReadRow(o);
    Then(s0, es, DoRead(o));
    es := es + [DoRead(o)];
    if !row.at.status.Paid? && !row.at.status.Processing? {
      return Some(BadRequest), es;
    }
    e := store.CreateShipment(o);
    Then(s0, es, DoShip(o));
    es := es + [DoShip(o)];
  }

  // ---- checkout.Service ----

  /** The steps of a checkout: none for a replayed key; else a placement and, when it creates an
      order, its free finalization or the charge of its total. */
  function CheckoutSteps(s: State, c: Checkout, o: OrderId, p: PaymentId, reply: GatewayReply, loses: bool, fault: bool): seq<Step> {
    PlaceSteps(s, c, o) +
    if SameKey(s.db.orders, c.user, c.key) then []
    else
      match DraftOf(s.db, c, o)
      case Err(_) => []
      case Ok(d) =>
        if d.row.total.amount <= 0 then []
        else [DoRead(o)] + ChargeSteps(ReadOrder(Saga.Place(s, c, o), o), o, d.row, p, reply, loses, fault)
  }

  /** What a checkout leaves of its new order: a free one is paid, one whose charge was approved is
      paid or owed back, and any other awaits payment, with its payment open unless the insert
      was lost. */
  ghost predicate CheckedOut(before: Db, after: Db, o: OrderId, p: PaymentId, d: Result<Draft>, reply: GatewayReply, loses: bool, fault: bool) {
    && o in after.orders
    && d.Ok?
    && if d.value.row.total.amount == 0 then after.orders[o].at == Progress(Paid, true, false)
       else if reply.Approved? && !loses then if fault then OwedBack(after, p, o) else PaidFor(after, p, o)
       else
         && after.orders[o].at == Progress(AwaitingPayment, false, false)
         && if loses then after.payments == before.payments else StillOpen(after, p, o)
  }

  lemma NewCharged(before: Db, placed: Db, after: Db, o: OrderId, p: PaymentId, d: Result<Draft>, reply: GatewayReply, loses: bool, fault: bool)
    requires d.Ok? && d.value.row.total.amount > 0
    requires placed.payments == before.payments && !HasActive(placed.payments, o)
    requires o in placed.orders && placed.orders[o].at == Progress(AwaitingPayment, false, false)
    requires Charged(placed, after, o, p, reply, loses, fault)
    ensures CheckedOut(before, after, o, p, d, reply, loses, fault)
  {
    hide HasActive;
  }

  lemma FreeCheckedOut(before: Db, after: Db, o: OrderId, p: PaymentId, d: Result<Draft>, reply: GatewayReply, loses: bool, fault: bool)
    requires d.Ok? && d.value.row.total.amount == 0
    requires o in after.orders && after.orders[o].at == Progress(Paid, true, false)
    ensures CheckedOut(before, after, o, p, d, reply, loses, fault)
  {
  }

  lemma PlacedSound(s: State, c: Checkout, o: OrderId)
    requires Sound(s) && o !in s.db.orders && DraftOf(s.db, c, o).Ok?
    ensures var s1, total := Saga.Place(s, c, o), DraftOf(s.db, c, o).value.row.total.amount;
            && total >= 0 && !HasActive(s1.db.payments, o)
            && Sound(s1) && Sound(ReadOrder(s1, o)) && ReadOrder(s1, o).db == s1.db
            && o in s1.db.orders && s1.db.orders[o].at == Progress(AwaitingPayment, false, false)
            && o in FinalizeFree(s1, o).db.orders && FinalizeFree(s1, o).db.orders[o].at == Progress(Paid, true, false)
  {
    hide Core, Stock, DraftOf, FinalizeFree, Shifted, ItemsOf, Snapshot, Total, SumOfSubtotals, QuantitiesOf;
    var s1 := Saga.Place(s, c, o);
    DraftMeans(s.db, c, o);
    NewHasNone(s, o);
    SoundStep(s, DoPlace(c, o));
    SoundStep(s1, DoRead(o));
    FreeExactly(s1, o);
  }

  lemma NewHasNone(s: State, o: OrderId)
    requires Core(s) && o !in s.db.orders
    ensures !HasActive(s.db.payments, o)
  {
    hide Core;
    if q :| q in s.db.payments && s.db.payments[q].order == o && IsActive(s.db.payments[q].status) {
      PaymentAt(s, q);
    }
  }

  /** PlaceOrder: a replayed key returns its order and charges nothing; a failed charge leaves the
      new order awaiting payment. */
  method PlaceOrder(store: Store, c: Checkout, o: OrderId, newId: PaymentId, reply: GatewayReply, loses: bool, fault: bool)
    returns (r: Result<OrderId>, ghost p: PaymentId, ghost es: seq<Step>)
    requires o !in store.db.orders && newId !in store.db.payments
    modifies store
    ensures Legal(old(store.Now()), es) && store.Now() == Run(old(store.Now()), es)
    ensures es == CheckoutSteps(old(store.Now()), c, o, p, reply, loses, fault) && Charges(old(store.db).payments, o, newId, p)
    ensures SameKey(old(store.db).orders, c.user, c.key) ==>
              && store.Now() == old(store.Now()) && r.Ok? && r.value in store.db.orders
              && store.db.orders[r.value].user == c.user && store.db.orders[r.value].key == c.key
    ensures !SameKey(old(store.db).orders, c.user, c.key) ==>
              match DraftOf(old(store.db), c, o)
              case Err(x) => r == Err(x) && store.Now() == old(store.Now())
              case Ok(_) => r == Ok(o)
    ensures Sound(old(store.Now())) && !SameKey(old(store.db).orders, c.user, c.key) && r.Ok? ==>
              CheckedOut(old(store.db), store.db, o, p, DraftOf(old(store.db), c, o), reply, loses, fault)
  {
    hide DraftOf, FinalizeFree, Legal, Run, ChargeSteps, Charges, HasActive, Sound, Charged, CheckedOut, SameKey, ReadOrder,
      Saga.Place, PlaceSteps;
    ghost var s0 := store.Now();
    if Sound(s0) && DraftOf(s0.db, c, o).Ok? {
      PlacedSound(s0, c, o);
    }
    PlaceKeepsPayments(s0, c, o);
    PlacedReads(s0, c, o);
    ReadKeeps(Saga.Place(s0, c, o), o);
    Nothing(s0);
    p := SomeCharge(store.db.payments, o, newId);
    var placed, steps := Place(store, c, o);
    es := steps;
    if placed.Err? {
      return Err(placed.error), p, es;
    }
    var k, created := placed.value.0, placed.value.1;
    if created && store.db.orders[k].total.amount > 0 {
      var row := store.ReadRow(k);
      Then(s0, es, DoRead(k));
      es := es + [DoRead(k)];
      ghost var more: seq<Step>;
      var charged, used;
      ghost var s1 := store.Now();
      charged, used, more := Charge(store, k, row, newId, reply, loses, fault);
      if Sound(s0) {
        NewCharged(s0.db, s1.db, store.db, o, used, DraftOf(s0.db, c, o), reply, loses, fault);
      }
      p := used;
      Append(s0, es, more);
      assert es + more == steps + ([DoRead(k)] + more);
      es := es + more;
    } else if created && Sound(s0) {
      FreeCheckedOut(s0.db, store.db, o, p, DraftOf(s0.db, c, o), reply, loses, fault);
    }
    return Ok(k), p, es;
  }

  lemma SomeCharge(payments: map<PaymentId, Payment>, o: OrderId, newId: PaymentId) returns (p: PaymentId)
    ensures Charges(payments, o, newId, p)
  {
    p := newId;
    if HasActive(payments, o) {
      p :| p in payments && payments[p].order == o && IsActive(payments[p].status);
    }
  }

  /** The row a checkout charges is the draft it placed. */
  lemma PlacedReads(s: State, c: Checkout, o: OrderId)
    ensures DraftOf(s.db, c, o).Ok? ==>
              var s1 := Saga.Place(s, c, o);
              o in s1.db.orders && s1.db.orders[o] == DraftOf(s.db, c, o).value.row
  {
    hide DraftOf;
  }

  lemma PlaceKeepsPayments(s: State, c: Checkout, o: OrderId)
    ensures Saga.Place(s, c, o).db.payments == s.db.payments
    ensures FinalizeFree(Saga.Place(s, c, o), o).db.payments == s.db.payments
  {
    hide DraftOf, Holds, QuantitiesOf, Inventory.Deducted;
  }

  /** The steps of a retry: read, claim, charge, and release the claim when the charge fails. */
  function RetrySteps(s: State, user: UserId, o: OrderId, p: PaymentId, reply: GatewayReply, loses: bool, fault: bool): seq<Step> {
    if o !in s.db.orders then []
    else if s.db.orders[o].user != user then [DoRead(o)]
    else if !Wins(s.db.orders, o, ToPaymentAttempt) then [DoRead(o), DoAdvance(o, ToPaymentAttempt)]
    else
      var claimed := Advance(ReadOrder(s, o), o, ToPaymentAttempt);
      [DoRead(o), DoAdvance(o, ToPaymentAttempt)] +
      ChargeSteps(claimed, o, s.db.orders[o], p, reply, loses, fault) +
      if ChargeResult(claimed, o, reply, loses).Err? then [DoAdvance(o, ToAwaitingPayment)] else []
  }

  /** Only an awaiting order can be claimed, and releasing the claim restores it. */
  lemma ClaimAndRelease(orders: map<OrderId, Order>, o: OrderId)
    ensures Wins(orders, o, ToPaymentAttempt) <==> o in orders && orders[o].at.status.AwaitingPayment?
    ensures Wins(orders, o, ToPaymentAttempt) ==> Cas(Cas(orders, o, ToPaymentAttempt), o, ToAwaitingPayment) == orders
    ensures !Wins(orders, o, ToPaymentAttempt) ==> Cas(orders, o, ToPaymentAttempt) == orders
  {
  }

  lemma ReleaseOnly(s: State, o: OrderId)
    ensures Advance(s, o, ToAwaitingPayment).db.orders == Cas(s.db.orders, o, ToAwaitingPayment)
  {
    hide Cas, Wins;
  }

  /** A claim changes nothing a charge looks at but the order's status. */
  lemma ResultsAlike(s: State, o: OrderId, reply: GatewayReply, loses: bool)
    ensures ReadOrder(s, o).db == s.db && (o in s.db.orders ==> Snap(o, s.db.orders[o]) in ReadOrder(s, o).h.snaps)
    ensures var claimed := Advance(ReadOrder(s, o), o, ToPaymentAttempt);
            && claimed.db == s.db.(orders := Cas(s.db.orders, o, ToPaymentAttempt)) && claimed.h.snaps == ReadOrder(s, o).h.snaps
            && ChargeResult(claimed, o, reply, loses) == ChargeResult(s, o, reply, loses)
  {
    hide Cas, Wins, ChargeResult;
    SamePayments(s, Advance(ReadOrder(s, o), o, ToPaymentAttempt), o, reply, loses);
  }

  lemma SamePayments(s: State, t: State, o: OrderId, reply: GatewayReply, loses: bool)
    requires s.db.payments == t.db.payments
    ensures ChargeResult(s, o, reply, loses) == ChargeResult(t, o, reply, loses)
  {
    hide HasActive;
  }

  /** What a retry that did not fail leaves: an approved one a paid order or money owed back, any
      other the claimed order with its payment open. */
  predicate Retried(db: Db, o: OrderId, p: PaymentId, approved: bool, fault: bool) {
    if approved then if fault then OwedBack(db, p, o) else PaidFor(db, p, o)
    else StillOpen(db, p, o) && db.orders[o].at.status.PaymentProcessing?
  }

  lemma ClaimCharged(s: State, after: Db, o: OrderId, p: PaymentId, reply: GatewayReply, loses: bool, fault: bool)
    requires o in s.db.orders && s.db.orders[o].at.status.PaymentProcessing?
    requires Charged(s.db, after, o, p, reply, loses, fault) && ChargeResult(s, o, reply, loses).Ok?
    ensures Retried(after, o, p, ChargeResult(s, o, reply, loses).value, fault)
  {
    hide PaidFor, OwedBack, HasActive;
  }

  lemma ClaimedSound(s: State, o: OrderId)
    requires Sound(s) && Wins(s.db.orders, o, ToPaymentAttempt)
    ensures var s1 := Advance(ReadOrder(s, o), o, ToPaymentAttempt);
            Sound(s1) && o in s1.db.orders && s1.db.orders[o].at.status.PaymentProcessing?
  {
    hide Sound, ReadOrder;
    SoundStep(s, DoRead(o));
    ReadKeeps(s, o);
    SoundStep(ReadOrder(s, o), DoAdvance(o, ToPaymentAttempt));
  }

  lemma ReadKeeps(s: State, o: OrderId)
    ensures ReadOrder(s, o).db == s.db
    ensures o in s.db.orders ==> Snap(o, s.db.orders[o]) in ReadOrder(s, o).h.snaps
  {
  }

  /** RetryPayment: only an order awaiting payment is charged, and a charge that fails leaves it
      so. */
  method RetryPayment(store: Store, user: UserId, o: OrderId, newId: PaymentId, reply: GatewayReply, loses: bool, fault: bool)
    returns (r: Result<bool>, ghost p: PaymentId, ghost es: seq<Step>)
    requires newId !in store.db.payments
    modifies store
    ensures Legal(old(store.Now()), es) && store.Now() == Run(old(store.Now()), es)
    ensures es == RetrySteps(old(store.Now()), user, o, p, reply, loses, fault) && Charges(old(store.db).payments, o, newId, p)
    ensures r == if o !in old(store.db).orders || old(store.db).orders[o].user != user then Err(NotFound)
                 else if !old(store.db).orders[o].at.status.AwaitingPayment? then Err(OrderNotPayable)
                 else ChargeResult(old(store.Now()), o, reply, loses)
    ensures r.Err? ==> store.db.orders == old(store.db).orders
    ensures Sound(old(store.Now())) && r.Ok? ==> Retried(store.db, o, p, r.value, fault)
  {
    hide Legal, Run, ChargeSteps, Charges, HasActive, Cas, Wins, Sound, Charged, Retried, ChargeResult, Advance, ReadOrder;
    ghost var s0 := store.Now();
    ClaimAndRelease(s0.db.orders, o);
    ResultsAlike(s0, o, reply, loses);
    Nothing(s0);
    es := [];
    p := SomeCharge(store.db.payments, o, newId);
    if o !in store.db.orders {
      return Err(NotFound), p, es;
    }
    var row := store.ReadRow(o);
    Then(s0, es, DoRead(o));
    es := es + [DoRead(o)];
    if row.user != user {
      return Err(NotFound), p, es;
    }
    var claimed := store.Transit(o, ToPaymentAttempt);
    Then(s0, es, DoAdvance(o, ToPaymentAttempt));
    es := es + [DoAdvance(o, ToPaymentAttempt)];
    if !claimed {
      return Err(OrderNotPayable), p, es;
    }
    ghost var s1 := store.Now();
    if Sound(s0) {
      ClaimedSound(s0, o);
    }
    var result, used, more := Charge(store, o, row, newId, reply, loses, fault);
    if Sound(s0) && result.Ok? {
      ClaimCharged(s1, store.db, o, used, reply, loses, fault);
    }
    p := used;
    Append(s0, es, more);
    es := es + more;
    if result.Err? {
      ReleaseOnly(store.Now(), o);
      var released := store.Transit(o, ToAwaitingPayment);
      Then(s0, es, DoAdvance(o, ToAwaitingPayment));
      es := es + [DoAdvance(o, ToAwaitingPayment)];
    }
    return result, p, es;
  }
}
