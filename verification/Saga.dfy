/** The checkout saga as a state machine: the tables the order, payment, inventory, promotion,
    cart and shipping modules share, and one function for each database transaction (or
    single statement outside one) of their services. Every function gives the committed
    state; a transaction that rolls back gives its argument. */
module Saga {
  import opened Common
  import opened OrderState
  import opened Inventory
  import opened Cart
  import P = Promotion

  type OrderId = nat
  type PaymentId = nat
  type UserId = nat
  /** Idempotency keys are compared and never inspected. */
  type Key = nat

  datatype Order = Order(
    user: UserId,
    key: Key,
    coupon: Option<P.Code>,
    subtotal: Money,
    discount: Money,
    total: Money,
    items: seq<Item>,
    at: Progress)

  datatype PaymentStatus = Pending | InProgress | Success | Failed | Dropped | RequiresReview | PaidBack

  datatype Payment = Payment(order: OrderId, amount: Money, status: PaymentStatus)

  datatype ShipmentStatus = InTransit | Arrived

  datatype Job = Job(payment: PaymentId, order: OrderId)

  datatype Db = Db(
    orders: map<OrderId, Order>,
    payments: map<PaymentId, Payment>,
    levels: Levels,
    promos: P.Promos,
    usages: P.Usages,
    carts: map<UserId, seq<Line>>,
    shipments: map<OrderId, ShipmentStatus>,
    jobs: set<Job>)

  /** An order row as some caller once read it. */
  datatype Snap = Snap(order: OrderId, row: Order)

  /** What has happened so far; no service reads it. `snaps` and `cleared` hold every order row
      ever read and every payment that ever passed SettleRefund's refundable check, so a later
      transaction may act on any of them however stale. The other fields count the committed
      stock movements. */
  datatype History = History(
    snaps: set<Snap>,
    cleared: set<PaymentId>,
    dispatched: set<OrderId>,
    deducts: map<OrderId, nat>,
    releases: map<OrderId, nat>,
    restocks: map<OrderId, nat>,
    stocked: map<ProductId, int>)

  datatype State = State(db: Db, h: History)

  const NO_DB := Db(map[], map[], map[], map[], map[], map[], map[], {})
  const NO_HISTORY := History({}, {}, {}, map[], map[], map[], map[])
  const EMPTY := State(NO_DB, NO_HISTORY)

  function Count(m: map<OrderId, nat>, o: OrderId): nat {
    if o in m then m[o] else 0
  }

  // ---- order rows ----

  predicate Wins(orders: map<OrderId, Order>, o: OrderId, t: Transition) {
    o in orders && t.From(orders[o].at.status)
  }

  /** order.Repository.Apply: a compare-and-set; a losing one changes nothing. */
  function Cas(orders: map<OrderId, Order>, o: OrderId, t: Transition): map<OrderId, Order> {
    if Wins(orders, o, t) then orders[o := orders[o].(at := Applied(orders[o].at, t))] else orders
  }

  // ---- payment rows ----

  predicate IsActive(s: PaymentStatus) {
    s.Pending? || s.InProgress? || s.RequiresReview?
  }

  /** Funds were captured, so the order must never become payable again. */
  predicate IsCaptured(s: PaymentStatus) {
    s.Success? || s.RequiresReview? || s.PaidBack?
  }

  predicate IsRefundable(s: PaymentStatus) {
    s.Success? || s.RequiresReview?
  }

  /** Another active payment of the same order exists, so activating `p` would violate the
      partial unique index ux_payments_order_active. */
  predicate OtherActive(payments: map<PaymentId, Payment>, p: PaymentId, o: OrderId) {
    exists q | q in payments :: q != p && payments[q].order == o && IsActive(payments[q].status)
  }

  function SetStatus(payments: map<PaymentId, Payment>, p: PaymentId, s: PaymentStatus): map<PaymentId, Payment>
    requires p in payments
  {
    payments[p := payments[p].(status := s)]
  }

  lemma SetTwice(payments: map<PaymentId, Payment>, p: PaymentId, s1: PaymentStatus, s2: PaymentStatus, o: OrderId)
    requires p in payments
    ensures SetStatus(SetStatus(payments, p, s1), p, s2) == SetStatus(payments, p, s2)
    ensures OtherActive(SetStatus(payments, p, s1), p, o) <==> OtherActive(payments, p, o)
  {
    var after := SetStatus(payments, p, s1);
    forall q | q in payments && q != p ensures after[q] == payments[q] {
    }
    if q :| q in payments && q != p && payments[q].order == o && IsActive(payments[q].status) {
      assert q in after;
    }
  }

  predicate CanMarkPaid(payments: map<PaymentId, Payment>, p: PaymentId) {
    p in payments &&
    (payments[p].status.Pending? || payments[p].status.InProgress? || payments[p].status.RequiresReview? || payments[p].status.Dropped?)
  }

  // ---- steps ----

  /** Charge's insert of a pending payment for the total of an order row read earlier. The row
      loses to the unique index when an active payment already exists. */
  function CreatePayment(s: State, p: PaymentId, o: OrderId, amount: Money): State {
    if p in s.db.payments || OtherActive(s.db.payments, p, o) then s
    else s.(db := s.db.(payments := s.db.payments[p := Payment(o, amount, Pending)]))
  }

  datatype Outcome =
    | Missing
    | Mismatch
    | AlreadyDone
    | Completed
    | Parked
    | Aborted
    | Refused

  /** FinalizeSuccess's transaction. */
  function FinalizeOutcome(s: State, p: PaymentId, o: OrderId): Outcome {
    var db := s.db;
    if o !in db.orders || p !in db.payments then Missing
    else if db.payments[p].amount != db.orders[o].total then Mismatch
    else if !CanMarkPaid(db.payments, p) && !Wins(db.orders, o, ToPaid) then AlreadyDone
    else if !Wins(db.orders, o, ToPaid) then
      if OtherActive(db.payments, p, db.payments[p].order) then Aborted else Parked
    else if Holds(db.levels, QuantitiesOf(db.orders[o].items)) then Completed
    else Refused
  }

  function Finalize(s: State, p: PaymentId, o: OrderId): State {
    var db := s.db;
    match FinalizeOutcome(s, p, o)
    case Parked =>
      s.(db := db.(payments := SetStatus(db.payments, p, RequiresReview),
                   orders := Cas(db.orders, o, ToFulfillmentFailedAfterCharge),
                   jobs := db.jobs + {Job(p, o)}))
    case Completed =>
      State(db.(payments := if CanMarkPaid(db.payments, p) then SetStatus(db.payments, p, Success) else db.payments,
                orders := Cas(db.orders, o, ToPaid),
                levels := Deducted(db.levels, QuantitiesOf(db.orders[o].items))),
            s.h.(deducts := s.h.deducts[o := Count(s.h.deducts, o) + 1]))
    case _ => s
  }

  /** CompensateRefund's transaction: both compare-and-sets are best effort. */
  function Compensate(s: State, p: PaymentId, o: OrderId): State {
    var db := s.db;
    var parks := p in db.payments &&
                 (db.payments[p].status.Pending? || db.payments[p].status.InProgress? || db.payments[p].status.Success?);
    if parks && OtherActive(db.payments, p, db.payments[p].order) then s
    else
      s.(db := db.(payments := if parks then SetStatus(db.payments, p, RequiresReview) else db.payments,
                   orders := Cas(db.orders, o, ToFulfillmentFailedCompensating),
                   jobs := db.jobs + {Job(p, o)}))
  }

  /** The webhook's failed/cancelled/expired event, payment side. */
  function DropPayment(s: State, p: PaymentId): State {
    if p in s.db.payments && (s.db.payments[p].status.Pending? || s.db.payments[p].status.InProgress?)
    then s.(db := s.db.(payments := SetStatus(s.db.payments, p, Dropped))) else s
  }

  /** The admin Refund. */
  function RequestRefund(s: State, p: PaymentId): State {
    if p in s.db.payments && IsRefundable(s.db.payments[p].status)
    then s.(db := s.db.(jobs := s.db.jobs + {Job(p, s.db.payments[p].order)})) else s
  }

  /** SettleRefund's check before the gateway is asked to refund. */
  function Clear(s: State, p: PaymentId): State {
    if p in s.db.payments && IsRefundable(s.db.payments[p].status)
    then s.(h := s.h.(cleared := s.h.cleared + {p})) else s
  }

  /** Which arm of inventory.Restore the flags of a row select. */
  function RestoreFor(items: seq<Item>, at: Progress): Restore {
    if |items| == 0 || at.reversed then Skip else if at.deducted then Restock else Release
  }

  function Tally(h: History, o: OrderId, b: Restore): History {
    match b
    case Skip => h
    case Release => h.(releases := h.releases[o := Count(h.releases, o) + 1])
    case Restock => h.(restocks := h.restocks[o := Count(h.restocks, o) + 1])
  }

  function ReleaseCoupon(db: Db, o: OrderId): Db {
    db.(promos := P.ReleasedPromos(db.promos, db.usages, o), usages := P.ReleasedUsages(db.usages, o))
  }

  function SettleRestore(row: Order): Restore {
    if Dispatched(row.at.status) then Skip else RestoreFor(row.items, row.at)
  }

  /** SettleRefund's transaction. A refused restore is logged and the partly applied batch
      commits with the rest. */
  function Settle(s: State, p: PaymentId, o: OrderId): State {
    var db := s.db;
    if o !in db.orders then s
    else
      var row := db.orders[o];
      var b := SettleRestore(row);
      var q := QuantitiesOf(row.items);
      var db1 := db.(
                 payments := if p in db.payments && IsRefundable(db.payments[p].status)
                 then SetStatus(db.payments, p, PaidBack) else db.payments,
                 orders := Cas(db.orders, o, ToRefunded),
                 levels := Restored(db.levels, q, b));
      State(if row.coupon.Some? then ReleaseCoupon(db1, o) else db1,
            if CanRestore(db.levels, q, b) then Tally(s.h, o, b) else s.h)
  }

  /** The transaction of cancelWithReversal (`t` is ToCancelled) and of expireOne (`t` is
      ToExpired), acting on the row `r` its caller read before it began. */
  function Reverse(s: State, o: OrderId, r: Order, t: Transition): State {
    var db := s.db;
    if !Wins(db.orders, o, t) then s
    else
      var items := db.orders[o].items;
      var b := RestoreFor(items, r.at);
      var q := QuantitiesOf(items);
      if !CanRestore(db.levels, q, b) then s
      else
        var db1 := db.(orders := Cas(db.orders, o, t), levels := Restored(db.levels, q, b));
        State(if r.coupon.Some? then ReleaseCoupon(db1, o) else db1, Tally(s.h, o, b))
  }

  /** finalizeFreeOrder's transaction. */
  function FinalizeFree(s: State, o: OrderId): State {
    var db := s.db;
    if !Wins(db.orders, o, ToPaid) then s
    else
      var q := QuantitiesOf(db.orders[o].items);
      if !Holds(db.levels, q) then s
      else
        State(db.(orders := Cas(db.orders, o, ToPaid), levels := Deducted(db.levels, q)),
              s.h.(deducts := s.h.deducts[o := Count(s.h.deducts, o) + 1]))
  }

  /** Apply on its own. */
  function Advance(s: State, o: OrderId, t: Transition): State {
    State(s.db.(orders := Cas(s.db.orders, o, t)),
          if t.ToShipped? && Wins(s.db.orders, o, t) then s.h.(dispatched := s.h.dispatched + {o}) else s.h)
  }

  /** shipping.Create: the shipment row and the order move commit together. */
  function Ship(s: State, o: OrderId): State {
    if o in s.db.shipments || !Wins(s.db.orders, o, ToShipped) then s
    else
      var s1 := Advance(s, o, ToShipped);
      s1.(db := s1.db.(shipments := s.db.shipments[o := InTransit]))
  }

  function Deliver(s: State, o: OrderId): State {
    if o !in s.db.shipments || !Wins(s.db.orders, o, ToDelivered) then s
    else
      var s1 := Advance(s, o, ToDelivered);
      s1.(db := s1.db.(shipments := s.db.shipments[o := Arrived]))
  }

  function ReadOrder(s: State, o: OrderId): State {
    if o in s.db.orders then s.(h := s.h.(snaps := s.h.snaps + {Snap(o, s.db.orders[o])})) else s
  }

  function OnHand(levels: Levels, p: ProductId): int {
    if p in levels then levels[p].available + levels[p].reserved else 0
  }

  function Stocked(h: History, p: ProductId): int {
    if p in h.stocked then h.stocked[p] else 0
  }

  function Relevel(s: State, p: ProductId, levels: Levels): State {
    State(s.db.(levels := levels),
          s.h.(stocked := s.h.stocked[p := Stocked(s.h, p) + OnHand(levels, p) - OnHand(s.db.levels, p)]))
  }

  function Adjust(s: State, p: ProductId, n: int): State {
    if CanAdjust(s.db.levels, p, n) then Relevel(s, p, Adjusted(s.db.levels, p, n)) else s
  }

  function TopUp(s: State, p: ProductId, qty: int): State {
    if CanTopUp(s.db.levels, p, qty) then Relevel(s, p, ToppedUp(s.db.levels, p, qty)) else s
  }

  function EnsureLevel(s: State, p: ProductId): State {
    if p in s.db.levels then s else Relevel(s, p, s.db.levels[p := Level(0, 0)])
  }

  // ---- placing an order ----

  datatype Checkout = Checkout(
    user: UserId,
    key: Key,
    coupon: Option<P.Code>,
    catalog: Catalog,
    percent: int,
    now: int,
    dbNow: int)

  predicate SameKey(orders: map<OrderId, Order>, user: UserId, key: Key) {
    exists o | o in orders :: orders[o].user == user && orders[o].key == key
  }

  /** The checks of the orders and order_items tables. */
  predicate ChecksPass(subtotal: Money, items: seq<Item>) {
    subtotal.amount >= 0 && forall it | it in items :: it.quantity > 0 && it.subtotal.amount >= 0
  }

  /** The row Place inserts, and the coupon tables it leaves. */
  datatype Draft = Draft(row: Order, promos: P.Promos, usages: P.Usages)

  function WithCoupon(promos: P.Promos, usages: P.Usages, c: Checkout, o: OrderId, row: Order): Result<Draft> {
    if c.coupon.None? then Ok(Draft(row, promos, usages))
    else
      match P.Reserve(promos, usages, c.coupon.value, c.user, o, row.subtotal.amount, c.percent, c.now, c.dbNow)
      case Err(e) => Err(e)
      case Ok((promos1, usages1, discount)) =>
        var rest := row.subtotal.amount - discount;
        if !(0 <= discount <= row.subtotal.amount) then Err(DatabaseError)
        else
          Ok(Draft(row.(discount := Money(discount, row.subtotal.currency),
                        total := Money(if rest > 0 then rest else 0, row.subtotal.currency)), promos1, usages1))
  }

  /** The row Place first inserts: the cart priced from the catalog, nothing discounted. */
  function RowOf(carts: map<UserId, seq<Line>>, c: Checkout): Result<Order> {
    if c.user !in carts || carts[c.user] == [] then Err(CartEmpty)
    else
      var es := Snapshot(carts[c.user], c.catalog);
      match Priced(es, es[0].price.currency)
      case Err(e) => Err(e)
      case Ok(subtotal) =>
        Ok(Order(c.user, c.key, c.coupon, subtotal, Money(0, subtotal.currency), subtotal, ItemsOf(es), FRESH))
  }

  /** Place's transaction, in the order its statements can fail. */
  function DraftOf(db: Db, c: Checkout, o: OrderId): Result<Draft> {
    match RowOf(db.carts, c)
    case Err(e) => Err(e)
    case Ok(row) =>
      if SameKey(db.orders, c.user, c.key) then Err(Conflict)
      else if row.subtotal.amount < 0 then Err(DatabaseError)
      else if !CanReserve(db.levels, QuantitiesOf(row.items)) then Err(InsufficientStock)
      else if !ChecksPass(row.subtotal, row.items) then Err(DatabaseError)
      else WithCoupon(db.promos, db.usages, c, o, row)
  }

  function Place(s: State, c: Checkout, o: OrderId): State {
    match DraftOf(s.db, c, o)
    case Err(_) => s
    case Ok(d) =>
      s.(db := s.db.(orders := s.db.orders[o := d.row],
                     levels := Reserved(s.db.levels, QuantitiesOf(d.row.items)),
                     promos := d.promos,
                     usages := d.usages,
                     carts := s.db.carts[c.user := []]))
  }

  // ---- carts and promotions, as their own modules edit them ----

  function EditCart(s: State, u: UserId, lines: seq<Line>): State {
    s.(db := s.db.(carts := s.db.carts[u := lines]))
  }

  /** Creating a promotion, or updating one; neither writes used_count. */
  function EditPromo(s: State, code: P.Code, promo: P.Promo): State {
    var used := if code in s.db.promos then s.db.promos[code].used else 0;
    s.(db := s.db.(promos := s.db.promos[code := promo.(used := used)]))
  }
}
