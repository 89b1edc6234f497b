/** What every reachable state of the checkout saga satisfies, and the lemmas that carry each
    clause across one row update. */
module SagaInvariant {
  import opened Common
  import opened OrderState
  import opened Inventory
  import opened Cart
  import opened Saga
  import opened Sums
  import P = Promotion

  // ---- one order row ----

  ghost predicate RowOk(r: Order) {
    && Fits(r.at)
    && r.items != []
    && (forall it | it in r.items :: it.quantity > 0)
    && r.subtotal.amount == SumOfSubtotals(r.items)
    && r.total.amount + r.discount.amount == r.subtotal.amount
    && 0 <= r.discount.amount <= r.subtotal.amount
  }

  /** `b` is `a` after some accepted compare-and-sets: what a caller read stays true of the row
      except that flags may have been set and a payable row may have stopped being payable. */
  predicate Evolves(a: Order, b: Order) {
    && b == a.(at := b.at)
    && (a.at.deducted ==> b.at.deducted)
    && (a.at.reversed ==> b.at.reversed)
    && (Payable(b.at.status) ==> Payable(a.at.status))
    && Rank(a.at.status) <= Rank(b.at.status)
  }

  // ---- clauses ----

  ghost predicate RowsOk(orders: map<OrderId, Order>) {
    forall o | o in orders :: RowOk(orders[o])
  }

  ghost predicate KeysUnique(orders: map<OrderId, Order>) {
    forall o, k | o in orders && k in orders ::
      orders[o].user == orders[k].user && orders[o].key == orders[k].key ==> o == k
  }

  ghost predicate ItemsStocked(orders: map<OrderId, Order>, levels: Levels) {
    forall o, p | o in orders && p in QuantitiesOf(orders[o].items) :: p in levels
  }

  ghost predicate PaymentOk(orders: map<OrderId, Order>, pay: Payment) {
    && pay.order in orders
    && pay.amount == orders[pay.order].total
    && !pay.status.InProgress? && !pay.status.Failed?
    && (IsCaptured(pay.status) ==> !Payable(orders[pay.order].at.status))
    && (pay.status.Success? ==> orders[pay.order].at.deducted)
  }

  ghost predicate PaymentsOk(orders: map<OrderId, Order>, payments: map<PaymentId, Payment>) {
    forall p | p in payments :: PaymentOk(orders, payments[p])
  }

  /** At most one active payment of an order, and at most one successful one. */
  ghost predicate OneOfEach(payments: map<PaymentId, Payment>) {
    forall p, q | p in payments && q in payments && p != q && payments[p].order == payments[q].order ::
      && !(IsActive(payments[p].status) && IsActive(payments[q].status))
      && !(payments[p].status.Success? && payments[q].status.Success?)
  }

  ghost predicate JobsOk(payments: map<PaymentId, Payment>, jobs: set<Job>) {
    forall j | j in jobs :: j.payment in payments && payments[j.payment].order == j.order
  }

  ghost predicate ClearedOk(payments: map<PaymentId, Payment>, cleared: set<PaymentId>) {
    forall p | p in cleared :: p in payments && IsCaptured(payments[p].status)
  }

  ghost predicate SnapsOk(orders: map<OrderId, Order>, snaps: set<Snap>) {
    forall n | n in snaps :: n.order in orders && Evolves(n.row, orders[n.order])
  }

  /** An order has a usage row exactly while it carries a coupon and its hold is not reversed. */
  ghost predicate UsagesOk(orders: map<OrderId, Order>, usages: P.Usages) {
    && (forall o | o in usages :: o in orders && orders[o].coupon == Some(usages[o].code))
    && (forall o | o in orders :: o in usages <==> orders[o].coupon.Some? && !orders[o].at.reversed)
  }

  ghost predicate DispatchOk(orders: map<OrderId, Order>, shipments: map<OrderId, ShipmentStatus>, dispatched: set<OrderId>) {
    && (forall o | o in dispatched ::
          o in orders && orders[o].at.deducted && (Dispatched(orders[o].at.status) || orders[o].at.status.Refunded?))
    && (forall o | o in orders && Dispatched(orders[o].at.status) :: o in dispatched)
    && (forall o | o in shipments :: o in dispatched)
  }

  ghost predicate CartsOk(carts: map<UserId, seq<Line>>) {
    forall u | u in carts :: forall l | l in carts[u] :: l.quantity > 0
  }

  ghost predicate OrderCore(orders: map<OrderId, Order>, levels: Levels, snaps: set<Snap>) {
    RowsOk(orders) && KeysUnique(orders) && ItemsStocked(orders, levels) && SnapsOk(orders, snaps)
  }

  ghost predicate PayCore(orders: map<OrderId, Order>, payments: map<PaymentId, Payment>, jobs: set<Job>, cleared: set<PaymentId>) {
    PaymentsOk(orders, payments) && OneOfEach(payments) && JobsOk(payments, jobs) && ClearedOk(payments, cleared)
  }

  ghost predicate CouponCore(orders: map<OrderId, Order>, promos: P.Promos, usages: P.Usages) {
    P.Counted(promos, usages) && UsagesOk(orders, usages)
  }

  ghost predicate Core(s: State) {
    && OrderCore(s.db.orders, s.db.levels, s.h.snaps)
    && PayCore(s.db.orders, s.db.payments, s.db.jobs, s.h.cleared)
    && CouponCore(s.db.orders, s.db.promos, s.db.usages)
    && DispatchOk(s.db.orders, s.db.shipments, s.h.dispatched)
    && CartsOk(s.db.carts)
  }

  // ---- stock ----

  function Qty(r: Order, p: ProductId): int {
    var q := QuantitiesOf(r.items);
    if p in q then q[p] else 0
  }

  /** The units of `p` an order row still holds reserved. */
  function HeldQty(r: Order, p: ProductId): int {
    if !r.at.deducted && !r.at.reversed then Qty(r, p) else 0
  }

  function Held(orders: map<OrderId, Order>, p: ProductId): map<OrderId, int> {
    map o | o in orders :: HeldQty(orders[o], p)
  }

  /** Units deducted for an order and not restocked since. */
  function GoneQty(r: Order, deducts: nat, restocks: nat, p: ProductId): int {
    if deducts > restocks then Qty(r, p) else 0
  }

  function Gone(s: State, p: ProductId): map<OrderId, int> {
    map o | o in s.db.orders :: GoneQty(s.db.orders[o], Count(s.h.deducts, o), Count(s.h.restocks, o), p)
  }

  ghost predicate LevelOk(s: State, p: ProductId)
    requires p in s.db.levels
  {
    && s.db.levels[p].available >= 0
    && s.db.levels[p].reserved == Sum(Held(s.db.orders, p))
    && s.db.levels[p].available + s.db.levels[p].reserved == Stocked(s.h, p) - Sum(Gone(s, p))
  }

  /** The committed stock movements of an order are exactly those its row and its dispatch
      history call for. */
  ghost predicate MovesOk(s: State, o: OrderId)
    requires o in s.db.orders
  {
    var at := s.db.orders[o].at;
    && Count(s.h.deducts, o) == (if at.deducted then 1 else 0)
    && Count(s.h.releases, o) == (if at.reversed && !at.deducted then 1 else 0)
    && Count(s.h.restocks, o) == (if at.reversed && at.deducted && o !in s.h.dispatched then 1 else 0)
  }

  ghost predicate LevelsOk(s: State) {
    forall p | p in s.db.levels :: LevelOk(s, p)
  }

  ghost predicate LedgerOk(s: State) {
    && (forall o | o in s.db.orders :: MovesOk(s, o))
    && (forall o | o !in s.db.orders :: Count(s.h.deducts, o) == Count(s.h.releases, o) == Count(s.h.restocks, o) == 0)
  }

  /** Nothing was ever stocked of a product without a level. */
  ghost predicate StockedOk(s: State) {
    forall p | p !in s.db.levels :: Stocked(s.h, p) == 0
  }

  ghost predicate Stock(s: State) {
    LevelsOk(s) && LedgerOk(s) && StockedOk(s)
  }

  // ---- one compare-and-set on an order row ----

  lemma CasEvolves(orders: map<OrderId, Order>, o: OrderId, t: Transition)
    requires RowsOk(orders)
    ensures RowsOk(Cas(orders, o, t))
    ensures Cas(orders, o, t).Keys == orders.Keys
    ensures forall k | k in orders :: Evolves(orders[k], Cas(orders, o, t)[k])
  {
    if Wins(orders, o, t) {
      AppliedFits(orders[o].at, t);
    }
  }

  lemma CasOrders(orders: map<OrderId, Order>, levels: Levels, snaps: set<Snap>, o: OrderId, t: Transition)
    requires OrderCore(orders, levels, snaps)
    ensures OrderCore(Cas(orders, o, t), levels, snaps)
  {
    CasEvolves(orders, o, t);
    var after := Cas(orders, o, t);
    forall n | n in snaps ensures n.order in after && Evolves(n.row, after[n.order]) {
      assert Evolves(orders[n.order], after[n.order]);
    }
    forall i, k | i in after && k in after && after[i].user == after[k].user && after[i].key == after[k].key ensures i == k {
      assert Evolves(orders[i], after[i]) && Evolves(orders[k], after[k]);
    }
    forall k, p | k in after && p in QuantitiesOf(after[k].items) ensures p in levels {
      assert Evolves(orders[k], after[k]);
    }
  }

  lemma CasPayments(orders: map<OrderId, Order>, payments: map<PaymentId, Payment>, jobs: set<Job>, cleared: set<PaymentId>,
                    o: OrderId, t: Transition)
    requires RowsOk(orders) && PayCore(orders, payments, jobs, cleared)
    ensures PayCore(Cas(orders, o, t), payments, jobs, cleared)
  {
    CasEvolves(orders, o, t);
    var after := Cas(orders, o, t);
    forall p | p in payments ensures PaymentOk(after, payments[p]) {
      assert PaymentOk(orders, payments[p]);
      assert Evolves(orders[payments[p].order], after[payments[p].order]);
    }
  }

  lemma CasUsages(orders: map<OrderId, Order>, usages: P.Usages, o: OrderId, t: Transition)
    requires RowsOk(orders) && UsagesOk(orders, usages) && Wins(orders, o, t)
    ensures t.ReversesStock() ==> UsagesOk(Cas(orders, o, t), P.ReleasedUsages(usages, o))
    ensures !t.ReversesStock() ==> UsagesOk(Cas(orders, o, t), usages)
  {
    var after := Cas(orders, o, t);
    assert after[o].coupon == orders[o].coupon;
    assert after[o].at.reversed == (orders[o].at.reversed || t.ReversesStock());
    forall k | k in orders && k != o ensures after[k] == orders[k] {
    }
  }

  lemma CasKeepsCoupons(orders: map<OrderId, Order>, promos: P.Promos, usages: P.Usages, o: OrderId, t: Transition)
    requires RowsOk(orders) && CouponCore(orders, promos, usages) && !t.ReversesStock()
    ensures CouponCore(Cas(orders, o, t), promos, usages)
  {
    if Wins(orders, o, t) {
      CasUsages(orders, usages, o, t);
    }
  }

  /** Releasing the coupon of an order that `t` reverses, or that is reversed already. */
  lemma CasReleasesCoupon(orders: map<OrderId, Order>, promos: P.Promos, usages: P.Usages, o: OrderId, t: Transition)
    requires RowsOk(orders) && CouponCore(orders, promos, usages) && o in orders
    requires t.ReversesStock() && (Wins(orders, o, t) || orders[o].at.reversed)
    ensures CouponCore(Cas(orders, o, t), P.ReleasedPromos(promos, usages, o), P.ReleasedUsages(usages, o))
    ensures orders[o].coupon.None? ==> CouponCore(Cas(orders, o, t), promos, usages)
  {
    P.ReleaseCounts(promos, usages, o);
    if o !in usages {
      assert P.ReleasedUsages(usages, o) == usages;
    }
    if Wins(orders, o, t) {
      CasUsages(orders, usages, o, t);
    }
  }

  lemma CasDispatch(orders: map<OrderId, Order>, shipments: map<OrderId, ShipmentStatus>, dispatched: set<OrderId>,
                    o: OrderId, t: Transition)
    requires DispatchOk(orders, shipments, dispatched) && RowsOk(orders)
    ensures DispatchOk(Cas(orders, o, t), shipments, if t.ToShipped? && Wins(orders, o, t) then dispatched + {o} else dispatched)
  {
    if Wins(orders, o, t) {
      var after := Cas(orders, o, t);
      assert after[o].at.status == t.To();
      assert t.ToShipped? ==> Fits(orders[o].at) && after[o].at.deducted;
      assert Dispatched(t.To()) ==> t.ToShipped? || Dispatched(orders[o].at.status);
      assert Dispatched(orders[o].at.status) ==> Dispatched(t.To()) || t.To().Refunded?;
      assert !orders[o].at.status.Refunded?;
    }
  }

  lemma StockedCarries(orders: map<OrderId, Order>, levels: Levels, snaps: set<Snap>, levels1: Levels)
    requires OrderCore(orders, levels, snaps) && levels.Keys <= levels1.Keys
    ensures OrderCore(orders, levels1, snaps)
  {
    hide RowsOk, KeysUnique, SnapsOk;
  }

  // ---- one update of a payment row ----

  lemma PaymentSet(orders: map<OrderId, Order>, payments: map<PaymentId, Payment>, jobs: set<Job>, cleared: set<PaymentId>,
                   p: PaymentId, st: PaymentStatus)
    requires PayCore(orders, payments, jobs, cleared)
    requires p in payments && payments[p].order in orders
    requires !st.InProgress? && !st.Failed?
    requires IsCaptured(st) ==> !Payable(orders[payments[p].order].at.status)
    requires IsActive(st) ==> !OtherActive(payments, p, payments[p].order)
    requires st.Success? ==> orders[payments[p].order].at.deducted
    requires st.Success? ==> forall q | q in payments && q != p && payments[q].order == payments[p].order :: !payments[q].status.Success?
    requires p in cleared ==> IsCaptured(st)
    ensures PayCore(orders, SetStatus(payments, p, st), jobs, cleared)
  {
    var after := SetStatus(payments, p, st);
    assert PaymentOk(orders, payments[p]);
    forall a, b | a in after && b in after && a != b && after[a].order == after[b].order
      ensures !(IsActive(after[a].status) && IsActive(after[b].status))
      ensures !(after[a].status.Success? && after[b].status.Success?)
    {
    }
  }

  lemma PaymentJob(orders: map<OrderId, Order>, payments: map<PaymentId, Payment>, jobs: set<Job>, cleared: set<PaymentId>,
                   p: PaymentId)
    requires PayCore(orders, payments, jobs, cleared) && p in payments
    ensures PayCore(orders, payments, jobs + {Job(p, payments[p].order)}, cleared)
  {
    hide PaymentsOk, OneOfEach, ClearedOk;
  }

  // ---- stock ----

  lemma QuantitiesPositive(r: Order, p: ProductId)
    requires RowOk(r)
    ensures Qty(r, p) >= 0
    ensures p in QuantitiesOf(r.items) ==> Qty(r, p) > 0
  {
    QuantitiesMember(r.items, p);
  }

  function HeldAt(s: State, o: OrderId, p: ProductId): int {
    if o in s.db.orders then HeldQty(s.db.orders[o], p) else 0
  }

  function GoneAt(s: State, o: OrderId, p: ProductId): int {
    if o in s.db.orders then GoneQty(s.db.orders[o], Count(s.h.deducts, o), Count(s.h.restocks, o), p) else 0
  }

  /** `s1` differs from `s` in one order and its stock counts. */
  ghost predicate OneOrderMoved(s: State, s1: State, o: OrderId) {
    && o in s1.db.orders
    && s1.db.orders == s.db.orders[o := s1.db.orders[o]]
    && (forall k | k != o :: Count(s1.h.deducts, k) == Count(s.h.deducts, k) && Count(s1.h.restocks, k) == Count(s.h.restocks, k))
    && s1.db.levels.Keys == s.db.levels.Keys
    && s1.h.stocked == s.h.stocked
  }

  lemma SumsMove(s: State, s1: State, o: OrderId, p: ProductId)
    requires OneOrderMoved(s, s1, o)
    ensures Sum(Held(s1.db.orders, p)) == Sum(Held(s.db.orders, p)) - HeldAt(s, o, p) + HeldAt(s1, o, p)
    ensures Sum(Gone(s1, p)) == Sum(Gone(s, p)) - GoneAt(s, o, p) + GoneAt(s1, o, p)
  {
    SumUpdate(Held(s.db.orders, p), Held(s1.db.orders, p), o);
    SumUpdate(Gone(s, p), Gone(s1, p), o);
  }

  /** The level of `p` moved by exactly what the order's hold and its gone units moved by. */
  ghost predicate LevelFollows(s: State, s1: State, o: OrderId, p: ProductId)
    requires p in s.db.levels && p in s1.db.levels
  {
    var before, after := s.db.levels[p], s1.db.levels[p];
    && after.available >= 0
    && after.reserved - before.reserved == HeldAt(s1, o, p) - HeldAt(s, o, p)
    && after.available + after.reserved + GoneAt(s1, o, p) == before.available + before.reserved + GoneAt(s, o, p)
  }

  lemma LevelCarries(s: State, s1: State, o: OrderId, p: ProductId)
    requires OneOrderMoved(s, s1, o) && p in s.db.levels && LevelOk(s, p)
    requires s1.db.levels[p].available >= 0
    ensures LevelOk(s1, p) <==> LevelFollows(s, s1, o, p)
  {
    SumsMove(s, s1, o, p);
  }

  ghost predicate LevelsFollow(s: State, s1: State, o: OrderId)
    requires s1.db.levels.Keys == s.db.levels.Keys
  {
    forall p | p in s.db.levels :: LevelFollows(s, s1, o, p)
  }

  /** From a state whose levels are right, a one-order move leaves them right if and only if
      every level follows the order. */
  lemma LevelsCarry(s: State, s1: State, o: OrderId)
    requires LevelsOk(s) && OneOrderMoved(s, s1, o)
    requires forall p | p in s1.db.levels :: s1.db.levels[p].available >= 0
    ensures LevelsOk(s1) <==> LevelsFollow(s, s1, o)
  {
    forall p | p in s.db.levels ensures LevelOk(s1, p) <==> LevelFollows(s, s1, o, p) {
      LevelCarries(s, s1, o, p);
    }
  }

  lemma HeldNonnegative(orders: map<OrderId, Order>, p: ProductId)
    requires RowsOk(orders)
    ensures forall k | k in orders :: Held(orders, p)[k] >= 0
  {
    hide RowOk, QuantitiesOf;
    forall k | k in orders ensures Held(orders, p)[k] >= 0 {
      QuantitiesPositive(orders[k], p);
    }
  }

  /** The hold of an order is covered by the reserved stock of each of its products. */
  lemma HoldCovered(s: State, o: OrderId)
    requires OrderCore(s.db.orders, s.db.levels, s.h.snaps) && LevelsOk(s)
    requires o in s.db.orders && !s.db.orders[o].at.deducted && !s.db.orders[o].at.reversed
    ensures Holds(s.db.levels, QuantitiesOf(s.db.orders[o].items))
  {
    hide RowsOk, KeysUnique, SnapsOk, QuantitiesOf;
    var q := QuantitiesOf(s.db.orders[o].items);
    forall p | p in q ensures p in s.db.levels && s.db.levels[p].reserved >= q[p] {
      assert LevelOk(s, p);
      HeldNonnegative(s.db.orders, p);
      SumAtLeast(Held(s.db.orders, p), o);
    }
  }
}
