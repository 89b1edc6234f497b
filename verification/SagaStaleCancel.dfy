/** The one read the saga does not survive: a cancel that wins from fulfillment_failed on a row
    read before the order's hold was reversed. */
module SagaStaleCancel {
  import opened Common
  import opened OrderState
  import opened Inventory
  import opened Cart
  import opened Saga
  import opened SagaInvariant
  import opened SagaStock
  import opened SagaRuns
  import P = Promotion

  lemma Extend(es: seq<Step>, e: Step)
    requires Legal(EMPTY, es) && AllCareful(EMPTY, es) && Enabled(Run(EMPTY, es), e)
    ensures Legal(EMPTY, es + [e]) && Run(EMPTY, es + [e]) == Next(Run(EMPTY, es), e)
    ensures Careful(Run(EMPTY, es), e) ==> AllCareful(EMPTY, es + [e])
  {
    hide Next, Enabled, Careful;
    assert (es + [e])[..|es|] == es;
  }

  const USD := Money(100, "USD")

  function Buy(user: UserId): Checkout {
    Checkout(user, 1, None, map[1 := Product(USD, true)], 0, 0, 0)
  }

  function Bought(user: UserId, qty: int, at: Progress): Order {
    var sum := Money(100 * qty, "USD");
    Order(user, 1, None, sum, Money(0, "USD"), sum, [Item(1, USD, qty, sum)], at)
  }

  /** Two units of product 1 for user 1 and three for user 2, out of ten. */
  lemma TwoOrders() returns (es: seq<Step>)
    ensures Legal(EMPTY, es) && AllCareful(EMPTY, es)
    ensures var db := Run(EMPTY, es).db;
            && db.orders == map[1 := Bought(1, 2, FRESH), 2 := Bought(2, 3, FRESH)]
            && db.levels == map[1 := Level(5, 5)]
            && db.payments == map[]
  {
    hide Run, Legal, AllCareful;
    es := [];
    StartLegal();
    Extend(es, DoAdjust(1, 10));
    es := es + [DoAdjust(1, 10)];
    es := PlaceOne(es, 1, 2, 10, 0);
    es := PlaceOne(es, 2, 3, 8, 2);
  }

  lemma StartLegal()
    ensures Legal(EMPTY, []) && AllCareful(EMPTY, []) && Run(EMPTY, []) == EMPTY
  {
  }

  lemma PlaceOne(es: seq<Step>, u: UserId, qty: int, available: int, reserved: int) returns (es1: seq<Step>)
    requires Legal(EMPTY, es) && AllCareful(EMPTY, es)
    requires 0 < qty <= available
    requires var db := Run(EMPTY, es).db; db.levels == map[1 := Level(available, reserved)] && u !in db.orders
    requires !SameKey(Run(EMPTY, es).db.orders, u, 1)
    ensures Legal(EMPTY, es1) && AllCareful(EMPTY, es1)
    ensures var db, db1 := Run(EMPTY, es).db, Run(EMPTY, es1).db;
            && db1.orders == db.orders[u := Bought(u, qty, FRESH)]
            && db1.levels == map[1 := Level(available - qty, reserved + qty)]
            && db1.payments == db.payments
  {
    hide Run, Legal, AllCareful, SameKey, DraftOf;
    var e := DoEditCart(u, [Line(1, qty)]);
    Extend(es, e);
    DraftOfOne(Run(EMPTY, es + [e]), u, qty);
    Extend(es + [e], DoPlace(Buy(u), u));
    es1 := es + [e] + [DoPlace(Buy(u), u)];
  }

  lemma DraftOfOne(s: State, u: UserId, qty: int)
    requires u in s.db.carts && s.db.carts[u] == [Line(1, qty)] && qty > 0
    requires 1 in s.db.levels && s.db.levels[1].available >= qty && !SameKey(s.db.orders, u, 1)
    ensures DraftOf(s.db, Buy(u), u) == Ok(Draft(Bought(u, qty, FRESH), s.db.promos, s.db.usages))
    ensures QuantitiesOf(Bought(u, qty, FRESH).items) == map[1 := qty]
  {
    hide SameKey;
    var es := Snapshot(s.db.carts[u], Buy(u).catalog);
    assert es == [Entry(1, qty, USD, true)];
    assert es[..0] == [];
    assert Priced(es, "USD") == Ok(Money(100 * qty, "USD"));
    var items := Bought(u, qty, FRESH).items;
    assert ItemsOf(es) == items;
    assert items[..0] == [];
    assert QuantitiesOf(items) == map[1 := qty];
    assert CanReserve(s.db.levels, QuantitiesOf(items));
    assert ChecksPass(Money(100 * qty, "USD"), items);
  }

  /** The row a client read right after placing order 1. */
  const STALE := Bought(1, 2, FRESH)

  ghost predicate Scene(s: State, at: Progress, level: Level, payment: PaymentStatus) {
    && s.db.orders == map[1 := Bought(1, 2, at), 2 := Bought(2, 3, FRESH)]
    && s.db.levels == map[1 := level]
    && s.db.payments == map[1 := Payment(1, Money(200, "USD"), payment)]
    && Snap(1, STALE) in s.h.snaps
  }

  lemma Quantity(at: Progress)
    ensures QuantitiesOf(Bought(1, 2, at).items) == map[1 := 2]
  {
    assert Bought(1, 2, at).items[..0] == [];
  }

  lemma ReleaseTwo(available: int, reserved: int)
    requires reserved >= 2
    ensures Released(map[1 := Level(available, reserved)], map[1 := 2]) == map[1 := Level(available + 2, reserved - 2)]
    ensures Holds(map[1 := Level(available, reserved)], map[1 := 2])
  {
  }

  lemma Opened() returns (es: seq<Step>)
    ensures Legal(EMPTY, es) && AllCareful(EMPTY, es)
    ensures Scene(Run(EMPTY, es), FRESH, Level(5, 5), Pending)
  {
    hide Run, Legal, AllCareful;
    es := TwoOrders();
    Extend(es, DoRead(1));
    es := es + [DoRead(1)];
    Extend(es, DoCreatePayment(1, 1, STALE));
    es := es + [DoCreatePayment(1, 1, STALE)];
  }

  const UNDONE := Progress(FulfillmentFailed, false, false)
  const CANCELLED_ONCE := Progress(Cancelled, false, true)
  const CHARGED_LATE := Progress(FulfillmentFailed, false, true)

  lemma Compensated(s: State)
    requires Scene(s, FRESH, Level(5, 5), Pending)
    ensures Scene(Compensate(s, 1, 1), UNDONE, Level(5, 5), RequiresReview)
  {
  }

  lemma CancelledOnce(s: State)
    requires Scene(s, UNDONE, Level(5, 5), RequiresReview)
    ensures Harmless(s, 1, STALE, ToCancelled)
    ensures Scene(Reverse(s, 1, STALE, ToCancelled), CANCELLED_ONCE, Level(7, 3), RequiresReview)
  {
    hide QuantitiesOf, Released, P.ReleasedPromos, P.ReleasedUsages;
    Quantity(UNDONE);
    ReleaseTwo(5, 5);
  }

  lemma LateOutcome(s: State)
    requires Scene(s, CANCELLED_ONCE, Level(7, 3), RequiresReview)
    ensures FinalizeOutcome(s, 1, 1).Parked?
  {
    hide QuantitiesOf, Holds;
  }

  lemma ChargedLate(s: State)
    requires Scene(s, CANCELLED_ONCE, Level(7, 3), RequiresReview)
    ensures Scene(Finalize(s, 1, 1), CHARGED_LATE, Level(7, 3), RequiresReview)
  {
    hide QuantitiesOf, Holds, Inventory.Deducted, FinalizeOutcome;
    LateOutcome(s);
  }

  lemma CancelledTwice(s: State)
    requires Scene(s, CHARGED_LATE, Level(7, 3), RequiresReview)
    ensures !Harmless(s, 1, STALE, ToCancelled)
    ensures Scene(Reverse(s, 1, STALE, ToCancelled), Progress(Cancelled, false, true), Level(9, 1), RequiresReview)
  {
    hide QuantitiesOf, Released, P.ReleasedPromos, P.ReleasedUsages;
    Quantity(CHARGED_LATE);
    ReleaseTwo(7, 3);
  }

  /** A run of steps in which one order's hold is released twice: the last cancel wins
      from fulfillment_failed on a row read when the order was placed. One unit is left
      reserved for an order that holds three. */
  lemma StaleCancelReleasesTwice() returns (es: seq<Step>, e: Step)
    ensures Legal(EMPTY, es + [e]) && AllCareful(EMPTY, es)
    ensures e == DoCancel(1, STALE) && !Careful(Run(EMPTY, es), e)
    ensures var s := Run(EMPTY, es + [e]);
            && 1 in s.db.levels && s.db.levels[1].reserved == 1
            && Held(s.db.orders, 1) == map[1 := 0, 2 := 3]
            && !Stock(s)
  {
    hide Run, Legal, AllCareful, Stock;
    es := Opened();
    Compensated(Run(EMPTY, es));
    Extend(es, DoCompensate(1, 1));
    es := es + [DoCompensate(1, 1)];
    CancelledOnce(Run(EMPTY, es));
    Extend(es, DoCancel(1, STALE));
    es := es + [DoCancel(1, STALE)];
    ChargedLate(Run(EMPTY, es));
    Extend(es, DoFinalize(1, 1));
    es := es + [DoFinalize(1, 1)];
    e := DoCancel(1, STALE);
    CancelledTwice(Run(EMPTY, es));
    Extend(es, e);
    StockAlways(es);
    StepStock(Run(EMPTY, es), e);
    HeldNow(Run(EMPTY, es + [e]));
  }

  lemma HeldNow(s: State)
    requires Scene(s, Progress(Cancelled, false, true), Level(9, 1), RequiresReview)
    ensures Held(s.db.orders, 1) == map[1 := 0, 2 := 3]
  {
    assert Bought(2, 3, FRESH).items[..0] == [];
  }
}
