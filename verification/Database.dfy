/** The tables as the repositories and transactions update them in place. A statement is a
    method that reassigns tables, a transaction saves them and puts them back when it fails, and
    errors are returned or swallowed where the services return or swallow them. Each transaction
    is proved to be the step of module Saga that models it. */
module Database {
  import opened Common
  import opened OrderState
  import opened Inventory
  import opened Cart
  import opened Saga
  import P = Promotion

  class Store {
    var db: Db
    ghost var h: History

    constructor ()
      ensures Now() == EMPTY
    {
      db := NO_DB;
      h := NO_HISTORY;
    }

    ghost function Now(): State
      reads this
    {
      State(db, h)
    }

    // ---- order rows ----

    method Apply(o: OrderId, t: Transition) returns (won: bool)
      modifies this`db
      ensures db == old(db).(orders := Cas(old(db).orders, o, t))
      ensures won == Wins(old(db).orders, o, t)
      ensures !won ==> db == old(db)
      ensures o in old(db).orders ==> o in db.orders && db.orders[o].items == old(db).orders[o].items
    {
      won := o in db.orders && t.From(db.orders[o].at.status);
      if won {
        var row := db.orders[o];
        var at := Progress(t.To(), row.at.deducted || t.DeductsStock(), row.at.reversed || t.ReversesStock());
        db := db.(orders := db.orders[o := row.(at := at)]);
      }
    }

    /** Apply on its own, outside any other write. */
    method Transit(o: OrderId, t: Transition) returns (won: bool)
      modifies this
      ensures Now() == Advance(old(Now()), o, t) && won == Wins(old(db).orders, o, t)
    {
      hide Cas, Wins;
      won := Apply(o, t);
      if won && t.ToShipped? {
        h := h.(dispatched := h.dispatched + {o});
      }
    }

    /** GetByID, whose answer the caller may act on at any later moment. */
    method ReadRow(o: OrderId) returns (row: Order)
      requires o in db.orders
      modifies this`h
      ensures row == db.orders[o] && Now() == ReadOrder(old(Now()), o)
    {
      row := db.orders[o];
      h := h.(snaps := h.snaps + {Snap(o, row)});
    }

    /** shipping.Create and shipping.Deliver: the shipment row moves only with its order. */
    method CreateShipment(o: OrderId) returns (e: Option<Error>)
      modifies this
      ensures Now() == Ship(old(Now()), o)
      ensures e == if o in old(db).shipments || !Wins(old(db).orders, o, ToShipped) then Some(Conflict) else None
      ensures e.None? ==> o in db.shipments && o in db.orders && db.orders[o].at.status.Shipped?
    {
      if o in db.shipments {
        return Some(Conflict);
      }
      var saved := db;
      db := db.(shipments := db.shipments[o := InTransit]);
      var won := Transit(o, ToShipped);
      if !won {
        db := saved;
        return Some(Conflict);
      }
      return None;
    }

    method DeliverShipment(o: OrderId) returns (e: Option<Error>)
      modifies this
      ensures Now() == Deliver(old(Now()), o)
      ensures e == if o !in old(db).shipments then Some(NotFound)
                   else if !Wins(old(db).orders, o, ToDelivered) then Some(Conflict)
                   else None
      ensures e.None? ==> o in db.orders && db.orders[o].at.status.Delivered?
    {
      if o !in db.shipments {
        return Some(NotFound);
      }
      var saved := db;
      db := db.(shipments := db.shipments[o := Arrived]);
      var won := Transit(o, ToDelivered);
      if !won {
        db := saved;
        return Some(Conflict);
      }
      return None;
    }

    method ItemQuantities(items: seq<Item>) returns (q: Quantities)
      ensures q == QuantitiesOf(items)
    {
      q := map[];
      for i := 0 to |items|
        invariant q == QuantitiesOf(items[..i])
      {
        q := q[items[i].product := items[i].quantity];
        assert items[..i + 1][..i] == items[..i];
      }
      assert items[..|items|] == items;
    }

    // ---- payment rows ----

    /** UpdateStatus: Conflict when the row is not in one of the accepted statuses,
        DatabaseError when activating it would violate the unique index. */
    method UpdateStatus(p: PaymentId, to: PaymentStatus, from: set<PaymentStatus>) returns (e: Option<Error>)
      modifies this`db
      ensures e == if !(p in old(db).payments && old(db).payments[p].status in from) then Some(Conflict)
                   else if IsActive(to) && OtherActive(old(db).payments, p, old(db).payments[p].order) then Some(DatabaseError)
                   else None
      ensures e.Some? ==> db == old(db)
      ensures e.None? ==> p in old(db).payments && db == old(db).(payments := SetStatus(old(db).payments, p, to))
    {
      if p !in db.payments || db.payments[p].status !in from {
        return Some(Conflict);
      }
      if IsActive(to) && OtherActive(db.payments, p, db.payments[p].order) {
        return Some(DatabaseError);
      }
      db := db.(payments := db.payments[p := db.payments[p].(status := to)]);
      return None;
    }

    /** GetActiveByOrderID: at most one row matches. */
    method ActivePayment(o: OrderId) returns (p: Option<PaymentId>)
      ensures p.Some? ==>
                p.value in db.payments && db.payments[p.value].order == o && IsActive(db.payments[p.value].status)
      ensures p.None? ==> forall q | q in db.payments && db.payments[q].order == o :: !IsActive(db.payments[q].status)
    {
      if q :| q in db.payments && db.payments[q].order == o && IsActive(db.payments[q].status) {
        return Some(q);
      }
      return None;
    }

    method InsertPayment(p: PaymentId, o: OrderId, amount: Money) returns (e: Option<Error>)
      modifies this`db
      ensures Now() == CreatePayment(old(Now()), p, o, amount)
      ensures e.None? <==> p !in old(db).payments && !OtherActive(old(db).payments, p, o)
    {
      if p in db.payments || OtherActive(db.payments, p, o) {
        return Some(DatabaseError);
      }
      db := db.(payments := db.payments[p := Payment(o, amount, Pending)]);
      return None;
    }

    method DropPending(p: PaymentId) returns (e: Option<Error>)
      modifies this`db
      ensures Now() == DropPayment(old(Now()), p)
    {
      e := UpdateStatus(p, Dropped, {Pending, InProgress});
    }

    /** The admin refund enqueues a job for a payment whose funds were captured. */
    method EnqueueRefund(p: PaymentId) returns (e: Option<Error>)
      modifies this`db
      ensures Now() == RequestRefund(old(Now()), p)
      ensures e.None? <==>
              p in old(db).payments && (old(db).payments[p].status.Success? || old(db).payments[p].status.RequiresReview?)
    {
      if p !in db.payments {
        return Some(NotFound);
      }
      if !db.payments[p].status.Success? && !db.payments[p].status.RequiresReview? {
        return Some(BadRequest);
      }
      db := db.(jobs := db.jobs + {Job(p, db.payments[p].order)});
      return None;
    }

    // ---- stock levels ----

    method Reserve(q: Quantities) returns (e: Option<Error>)
      modifies this`db
      ensures db == old(db).(levels := Reserved(old(db).levels, q))
      ensures e == if CanReserve(old(db).levels, q) then None else Some(InsufficientStock)
    {
      var levels := db.levels;
      if |q| == 0 {
        assert levels == Reserved(levels, q);
        return None;
      }
      var hit := set p | p in q && p in levels && levels[p].available >= q[p];
      db := db.(levels := map p | p in levels ::
                  if p in hit then Level(levels[p].available - q[p], levels[p].reserved + q[p]) else levels[p]);
      CountedAll(hit, q.Keys);
      return if |hit| == |q.Keys| then None else Some(InsufficientStock);
    }

    method Deduct(q: Quantities) returns (e: Option<Error>)
      modifies this`db
      ensures db == old(db).(levels := Inventory.Deducted(old(db).levels, q))
      ensures e == if Holds(old(db).levels, q) then None else Some(BadRequest)
    {
      var levels := db.levels;
      if |q| == 0 {
        assert levels == Inventory.Deducted(levels, q);
        return None;
      }
      var hit := set p | p in q && p in levels && levels[p].reserved >= q[p];
      db := db.(levels := map p | p in levels ::
                  if p in hit then Level(levels[p].available, levels[p].reserved - q[p]) else levels[p]);
      CountedAll(hit, q.Keys);
      return if |hit| == |q.Keys| then None else Some(BadRequest);
    }

    method ReleaseBatch(q: Quantities) returns (e: Option<Error>)
      modifies this`db
      ensures db == old(db).(levels := Released(old(db).levels, q))
      ensures e == if Holds(old(db).levels, q) then None else Some(BadRequest)
    {
      var levels := db.levels;
      if |q| == 0 {
        assert levels == Released(levels, q);
        return None;
      }
      var hit := set p | p in q && p in levels && levels[p].reserved >= q[p];
      db := db.(levels := map p | p in levels ::
                  if p in hit then Level(levels[p].available + q[p], levels[p].reserved - q[p]) else levels[p]);
      CountedAll(hit, q.Keys);
      return if |hit| == |q.Keys| then None else Some(BadRequest);
    }

    method RestockBatch(q: Quantities)
      modifies this`db
      ensures db == old(db).(levels := db.levels) && db.levels.Keys == old(db).levels.Keys
      ensures forall p | p in db.levels ::
                && db.levels[p].reserved == old(db).levels[p].reserved
                && db.levels[p].available == old(db).levels[p].available + if p in q then q[p] else 0
    {
      if |q| == 0 {
        return;
      }
      var levels := db.levels;
      db := db.(levels := map p | p in levels ::
                  if p in q then Level(levels[p].available + q[p], levels[p].reserved) else levels[p]);
    }

    /** inventory.Restore. */
    method Restore(q: Quantities, deducted: bool) returns (e: Option<Error>)
      modifies this`db
      ensures var b := if deducted then Restock else Release;
              && db == old(db).(levels := Restored(old(db).levels, q, b))
              && e == if CanRestore(old(db).levels, q, b) then None else Some(BadRequest)
    {
      if deducted {
        RestockBatch(q);
        assert db.levels == Restocked(old(db).levels, q);
        return None;
      }
      e := ReleaseBatch(q);
    }

    /** inventory.Adjust, Restock and EnsureLevel. */
    method AdjustStock(p: ProductId, n: int) returns (e: Option<Error>)
      modifies this
      ensures Now() == Adjust(old(Now()), p, n)
      ensures e.None? <==> CanAdjust(old(db).levels, p, n)
    {
      if p !in db.levels {
        if n < 0 {
          return Some(DatabaseError);
        }
        SetLevels(p, db.levels[p := Level(n, 0)]);
        return None;
      }
      var reserved := db.levels[p].reserved;
      if reserved > n {
        return Some(BadRequest);
      }
      SetLevels(p, db.levels[p := Level(n - reserved, reserved)]);
      return None;
    }

    method RestockProduct(p: ProductId, qty: int) returns (e: Option<Error>)
      modifies this
      ensures Now() == TopUp(old(Now()), p, qty)
      ensures e.None? <==> CanTopUp(old(db).levels, p, qty)
    {
      if p !in db.levels {
        return Some(NotFound);
      }
      var level := db.levels[p];
      if level.available + qty < 0 {
        return Some(DatabaseError);
      }
      SetLevels(p, db.levels[p := Level(level.available + qty, level.reserved)]);
      return None;
    }

    method SetLevels(p: ProductId, levels: Levels)
      modifies this
      ensures Now() == Relevel(old(Now()), p, levels)
    {
      h := h.(stocked := h.stocked[p := Stocked(h, p) + OnHand(levels, p) - OnHand(db.levels, p)]);
      db := db.(levels := levels);
    }

    // ---- coupons ----

    /** promotion.Reserve. */
    method ReserveUsage(code: P.Code, user: UserId, o: OrderId, subtotal: int, percent: int, now: int, dbNow: int)
      returns (r: Result<int>)
      modifies this`db
      ensures match P.Reserve(old(db).promos, old(db).usages, code, user, o, subtotal, percent, now, dbNow)
              case Err(e) => r == Err(e) && db == old(db)
              case Ok((promos, usages, discount)) => r == Ok(discount) && db == old(db).(promos := promos, usages := usages)
    {
      if code !in db.promos {
        return Err(NotFound);
      }
      var promo := db.promos[code];
      var refusal := P.Validate(promo, subtotal, now);
      if refusal.Some? {
        return Err(refusal.value);
      }
      var discount := P.ComputeDiscount(promo, subtotal, percent);
      if !P.Claimable(promo, dbNow) {
        return Err(CouponExhausted);
      }
      if exists k | k in db.usages :: db.usages[k].code == code && db.usages[k].user == user {
        return Err(Conflict);
      }
      db := db.(promos := db.promos[code := promo.(used := promo.used + 1)],
                usages := db.usages[o := P.Usage(code, user, discount)]);
      return Ok(discount);
    }

    /** promotion.Release. */
    method ReleaseUsage(o: OrderId)
      modifies this`db
      ensures db == ReleaseCoupon(old(db), o)
    {
      var usages := db.usages;
      if o !in usages {
        assert P.ReleasedUsages(usages, o) == usages;
        return;
      }
      var code := usages[o].code;
      db := db.(usages := map k | k in usages && k != o :: usages[k]);
      assert db.usages == P.ReleasedUsages(usages, o);
      if code in db.promos && db.promos[code].used > 0 {
        db := db.(promos := db.promos[code := db.promos[code].(used := db.promos[code].used - 1)]);
      }
    }

    // ---- payment service: transactions ----

    method FinalizeSuccess(p: PaymentId, o: OrderId) returns (e: Option<Error>)
      modifies this
      ensures Now() == Finalize(old(Now()), p, o)
      ensures e == match FinalizeOutcome(old(Now()), p, o)
                   case Missing => Some(NotFound)
                   case Mismatch => Some(AmountMismatch)
                   case AlreadyDone => Some(AlreadyFinalized)
                   case Aborted => Some(DatabaseError)
                   case Refused => Some(BadRequest)
                   case Completed => None
                   case Parked => None
    {
      hide QuantitiesOf, Holds, Inventory.Deducted, OtherActive, Cas, Wins, CanMarkPaid;
      var saved := db;
      if o !in db.orders || p !in db.payments {
        return Some(NotFound);
      }
      if db.payments[p].amount != db.orders[o].total {
        return Some(AmountMismatch);
      }
      var paymentErr, paid := MarkPaid(p, o);
      if paymentErr.Some? && !paid {
        db := saved;
        return Some(AlreadyFinalized);
      }
      if !paid {
        SetTwice(saved.payments, p, Success, RequiresReview, db.payments[p].order);
        e := ParkLate(p, o);
      } else {
        e := DeductFor(o);
      }
      if e.Some? {
        db := saved;
      }
    }

    /** Both compare-and-sets of a captured payment, neither waiting for the other. */
    method MarkPaid(p: PaymentId, o: OrderId) returns (paymentErr: Option<Error>, paid: bool)
      modifies this`db
      ensures paymentErr.None? <==> CanMarkPaid(old(db).payments, p)
      ensures paid == Wins(old(db).orders, o, ToPaid)
      ensures !paid ==> db.orders == old(db).orders
      ensures o in old(db).orders ==> o in db.orders && db.orders[o].items == old(db).orders[o].items
      ensures db == old(db).(payments := if CanMarkPaid(old(db).payments, p) then SetStatus(old(db).payments, p, Success) else old(db).payments,
                             orders := Cas(old(db).orders, o, ToPaid))
    {
      hide OtherActive, Cas, Wins;
      paymentErr := UpdateStatus(p, Success, {Pending, InProgress, RequiresReview, Dropped});
      paid := Apply(o, ToPaid);
    }

    /** A captured payment of an order that is no longer payable: park it and enqueue its refund. */
    method ParkLate(p: PaymentId, o: OrderId) returns (e: Option<Error>)
      requires p in db.payments && db.payments[p].status.Success?
      modifies this`db
      ensures e == if OtherActive(old(db).payments, p, old(db).payments[p].order) then Some(DatabaseError) else None
      ensures e.None? ==>
                db == old(db).(payments := SetStatus(old(db).payments, p, RequiresReview),
                               orders := Cas(old(db).orders, o, ToFulfillmentFailedAfterCharge),
                               jobs := old(db).jobs + {Job(p, o)})
    {
      hide OtherActive, Cas, SetStatus;
      e := UpdateStatus(p, RequiresReview, {Success});
      if e == Some(DatabaseError) {
        return;
      }
      var moved := Apply(o, ToFulfillmentFailedAfterCharge);
      db := db.(jobs := db.jobs + {Job(p, o)});
    }

    /** List the order's quantities and deduct them. */
    method DeductFor(o: OrderId) returns (e: Option<Error>)
      requires o in db.orders
      modifies this
      ensures var q := QuantitiesOf(old(db).orders[o].items);
              && e == (if Holds(old(db).levels, q) then None else Some(BadRequest))
              && db == old(db).(levels := Inventory.Deducted(old(db).levels, q))
              && h == if e.None? then old(h).(deducts := old(h).deducts[o := Count(old(h).deducts, o) + 1]) else old(h)
    {
      var q := ItemQuantities(db.orders[o].items);
      e := Deduct(q);
      if e.None? {
        h := h.(deducts := h.deducts[o := Count(h.deducts, o) + 1]);
      }
    }

    method CompensateRefund(p: PaymentId, o: OrderId)
      modifies this
      ensures Now() == Compensate(old(Now()), p, o)
    {
      hide OtherActive;
      var saved := db;
      var statusErr := UpdateStatus(p, RequiresReview, {Pending, InProgress, Success});
      if statusErr == Some(DatabaseError) {
        db := saved;
        return;
      }
      var moved := Apply(o, ToFulfillmentFailedCompensating);
      db := db.(jobs := db.jobs + {Job(p, o)});
    }

    /** SettleRefund's check before it asks the gateway. */
    method CheckRefundable(p: PaymentId) returns (e: Option<Error>)
      modifies this`h
      ensures Now() == Clear(old(Now()), p)
      ensures e == if p !in db.payments then Some(NotFound)
                   else if !(db.payments[p].status.Success? || db.payments[p].status.RequiresReview?) then Some(NotRefundable)
                   else None
    {
      if p !in db.payments {
        return Some(NotFound);
      }
      if !db.payments[p].status.Success? && !db.payments[p].status.RequiresReview? {
        return Some(NotRefundable);
      }
      h := h.(cleared := h.cleared + {p});
      return None;
    }

    method SettleTx(p: PaymentId, o: OrderId) returns (e: Option<Error>)
      modifies this
      ensures Now() == Settle(old(Now()), p, o)
      ensures e == if o in old(db).orders then None else Some(NotFound)
    {
      hide QuantitiesOf, CanRestore, Restored, SettleRestore, Tally, Cas, Wins, SetStatus, OtherActive, ReleaseCoupon;
      if o !in db.orders {
        return Some(NotFound);
      }
      var snap := db.orders[o];
      var statusErr := UpdateStatus(p, PaidBack, {Success, RequiresReview});
      var refunded := Apply(o, ToRefunded);
      RestoreRefunded(o, snap);
      if snap.coupon.Some? {
        ReleaseUsage(o);
      }
      return None;
    }

    /** The stock side of a refund, by the order row read at its start; a refused restore is
        swallowed with whatever it had already updated. */
    method RestoreRefunded(o: OrderId, snap: Order)
      modifies this
      ensures var b, q := SettleRestore(snap), QuantitiesOf(snap.items);
              && db == old(db).(levels := Restored(old(db).levels, q, b))
              && h == if CanRestore(old(db).levels, q, b) then Tally(old(h), o, b) else old(h)
    {
      hide QuantitiesOf, Holds, Released, Restocked;
      var q := ItemQuantities(snap.items);
      if !Dispatched(snap.at.status) && |snap.items| > 0 && !snap.at.reversed {
        var restoreErr := Restore(q, snap.at.deducted);
        if restoreErr.None? {
          h := Tally(h, o, if snap.at.deducted then Restock else Release);
        }
      }
    }

    // ---- order service: transactions ----

    method CancelWithReversal(o: OrderId, row: Order) returns (e: Option<Error>)
      modifies this
      ensures Now() == Reverse(old(Now()), o, row, ToCancelled)
      ensures e == if Wins(old(db).orders, o, ToCancelled) &&
                      CanRestore(old(db).levels, QuantitiesOf(old(db).orders[o].items), RestoreFor(old(db).orders[o].items, row.at))
                   then None else Some(BadRequest)
    {
      hide QuantitiesOf, CanRestore, Restored, P.ReleasedPromos, P.ReleasedUsages;
      var saved := db;
      var won := Apply(o, ToCancelled);
      if !won {
        return Some(BadRequest);
      }
      e := ReleaseHolds(o, row);
      if e.Some? {
        db := saved;
      }
    }

    method ExpireOne(o: OrderId, row: Order) returns (e: Option<Error>)
      modifies this
      ensures Now() == Reverse(old(Now()), o, row, ToExpired)
      ensures !Wins(old(db).orders, o, ToExpired) ==> e.None?
    {
      hide QuantitiesOf, CanRestore, Restored, P.ReleasedPromos, P.ReleasedUsages;
      var saved := db;
      var won := Apply(o, ToExpired);
      if !won {
        return None;
      }
      e := ReleaseHolds(o, row);
      if e.Some? {
        db := saved;
      }
    }

    /** What cancelWithReversal and expireOne do after their compare-and-set won: give back the
        stock the row read earlier calls for, then the coupon. */
    method ReleaseHolds(o: OrderId, row: Order) returns (e: Option<Error>)
      requires o in db.orders
      modifies this
      ensures var b, q := RestoreFor(old(db).orders[o].items, row.at), QuantitiesOf(old(db).orders[o].items);
              var released := old(db).(levels := Restored(old(db).levels, q, b));
              if CanRestore(old(db).levels, q, b)
              then e.None? && Now() == State(if row.coupon.Some? then ReleaseCoupon(released, o) else released, Tally(old(h), o, b))
              else e == Some(BadRequest) && h == old(h)
    {
      hide QuantitiesOf, Holds, Released, Restocked, P.ReleasedPromos, P.ReleasedUsages;
      var items := db.orders[o].items;
      if |items| > 0 && !row.at.reversed {
        var q := ItemQuantities(items);
        e := Restore(q, row.at.deducted);
        if e.Some? {
          return;
        }
        h := Tally(h, o, if row.at.deducted then Restock else Release);
      }
      if row.coupon.Some? {
        ReleaseUsage(o);
      }
      return None;
    }

    method FinalizeFreeOrder(o: OrderId) returns (e: Option<Error>)
      modifies this
      ensures Now() == FinalizeFree(old(Now()), o)
      ensures e == if !Wins(old(db).orders, o, ToPaid) then Some(Conflict)
                   else if !Holds(old(db).levels, QuantitiesOf(old(db).orders[o].items)) then Some(BadRequest)
                   else None
    {
      hide QuantitiesOf, Holds, Inventory.Deducted;
      var saved := db;
      var won := Apply(o, ToPaid);
      if !won {
        return Some(Conflict);
      }
      e := DeductFor(o);
      if e.Some? {
        db := saved;
      }
    }

    /** Place's transaction. */
    method PlaceOrder(c: Checkout, o: OrderId) returns (e: Option<Error>)
      requires o !in db.orders
      modifies this`db
      ensures Now() == Place(old(Now()), c, o)
      ensures e == match DraftOf(old(db), c, o)
                   case Err(x) => Some(x)
                   case Ok(_) => None
    {
      hide DraftOf;
      var saved := db;
      e := PlaceTx(c, o);
      if e.Some? {
        db := saved;
      }
    }

    /** The statements of Place's transaction. */
    method PlaceTx(c: Checkout, o: OrderId) returns (e: Option<Error>)
      requires o !in db.orders
      modifies this`db
      ensures match DraftOf(old(db), c, o)
              case Err(x) => e == Some(x)
              case Ok(_) => e.None? && db == Place(old(Now()), c, o).db
    {
      hide RowOf, QuantitiesOf, CanReserve, Reserved, WithCoupon, SameKey, ChecksPass;
      var saved := db;
      var priced, reservations := PriceCart(c);
      if priced.Err? {
        return Some(priced.error);
      }
      var row := priced.value;
      if SameKey(db.orders, c.user, c.key) {
        return Some(Conflict);
      }
      if row.subtotal.amount < 0 {
        return Some(DatabaseError);
      }
      db := db.(orders := db.orders[o := row]);
      e := Reserve(reservations);
      if e.Some? {
        return;
      }
      if !ChecksPass(row.subtotal, row.items) {
        return Some(DatabaseError);
      }
      e := ApplyCoupon(c, o, row);
      if e.Some? {
        return;
      }
      assert db.orders == saved.orders[o := db.orders[o]];
      db := db.(carts := db.carts[c.user := []]);
    }

    /** Lock and read the cart, price it, and build the order row and the quantities to reserve. */
    method PriceCart(c: Checkout) returns (r: Result<Order>, reservations: Quantities)
      ensures r == RowOf(db.carts, c)
      ensures r.Ok? ==> reservations == QuantitiesOf(r.value.items)
    {
      hide QuantitiesOf, ItemsOf, Priced;
      if c.user !in db.carts || |db.carts[c.user]| == 0 {
        return Err(CartEmpty), map[];
      }
      var entries := Snapshot(db.carts[c.user], c.catalog);
      var priceErr, subtotal, quantities := Price(entries);
      if priceErr.Some? {
        return Err(priceErr.value), map[];
      }
      var items := ItemRows(entries);
      return Ok(Order(c.user, c.key, c.coupon, subtotal, Money(0, subtotal.currency), subtotal, items, FRESH)), quantities;
    }

    /** Place's coupon block: claim the coupon, then UpdateTotals on the order just inserted. */
    method ApplyCoupon(c: Checkout, o: OrderId, row: Order) returns (e: Option<Error>)
      requires o in db.orders && db.orders[o] == row
      modifies this`db
      ensures match WithCoupon(old(db).promos, old(db).usages, c, o, row)
              case Err(x) => e == Some(x)
              case Ok(d) =>
                e.None? && d.row == row.(discount := d.row.discount, total := d.row.total) &&
                db == old(db).(orders := old(db).orders[o := d.row], promos := d.promos, usages := d.usages)
    {
      hide P.Reserve;
      if c.coupon.None? {
        assert db.orders == db.orders[o := row];
        return None;
      }
      var subtotal := row.subtotal;
      var reserved := ReserveUsage(c.coupon.value, c.user, o, subtotal.amount, c.percent, c.now, c.dbNow);
      if reserved.Err? {
        return Some(reserved.error);
      }
      var discount := reserved.value;
      if !(0 <= discount <= subtotal.amount) {
        return Some(DatabaseError);
      }
      var rest := subtotal.amount - discount;
      db := db.(orders := db.orders[o := row.(discount := Money(discount, subtotal.currency),
                                              total := Money(if rest > 0 then rest else 0, subtotal.currency))]);
      return None;
    }

    /** Place's pricing loop, which also collects the quantities to reserve. */
    method Price(entries: seq<Entry>) returns (e: Option<Error>, subtotal: Money, reservations: Quantities)
      requires entries != []
      ensures match Priced(entries, entries[0].price.currency)
              case Err(x) => e == Some(x)
              case Ok(m) => e.None? && subtotal == m && reservations == QuantitiesOf(ItemsOf(entries))
    {
      var currency := entries[0].price.currency;
      subtotal, reservations := Money(0, currency), map[];
      for i := 0 to |entries|
        invariant Priced(entries[..i], currency) == Ok(subtotal)
        invariant reservations == QuantitiesOf(ItemsOf(entries[..i]))
      {
        var entry := entries[i];
        assert entries[..i + 1][..i] == entries[..i];
        assert ItemsOf(entries[..i + 1])[..i] == ItemsOf(entries[..i]);
        if !entry.published {
          PricedStops(entries, i + 1, currency);
          return Some(BadRequest), subtotal, reservations;
        }
        var sum := subtotal.Add(entry.price.MulQty(entry.quantity));
        if sum.Err? {
          PricedStops(entries, i + 1, currency);
          return Some(sum.error), subtotal, reservations;
        }
        subtotal := sum.value;
        reservations := reservations[entry.product := entry.quantity];
      }
      assert entries[..|entries|] == entries;
      return None, subtotal, reservations;
    }

    method ItemRows(entries: seq<Entry>) returns (items: seq<Item>)
      ensures items == ItemsOf(entries)
    {
      items := [];
      for i := 0 to |entries|
        invariant items == ItemsOf(entries)[..i]
      {
        var entry := entries[i];
        items := items + [Item(entry.product, entry.price, entry.quantity, entry.price.MulQty(entry.quantity))];
      }
    }
  }
}
