/** Placing an order: what a committed draft says, and that it keeps every clause. */
module SagaPlace {
  import opened Common
  import opened OrderState
  import opened Inventory
  import opened Cart
  import opened Saga
  import opened SagaInvariant
  import opened SagaStock
  import P = Promotion

  /** A committed order is the cart: its items are the cart's lines at their current prices, its
      subtotal is their sum and the cart's own total, discount and total add up to it, and the
      discount lies between zero and the subtotal. */
  lemma DraftMeans(db: Db, c: Checkout, o: OrderId)
    requires DraftOf(db, c, o).Ok?
    ensures c.user in db.carts && db.carts[c.user] != []
    ensures var row, es := DraftOf(db, c, o).value.row, Snapshot(db.carts[c.user], c.catalog);
            && row.user == c.user && row.key == c.key && row.coupon == c.coupon && row.at == FRESH
            && row.items == ItemsOf(es)
            && (forall e | e in es :: e.published && e.price.currency == row.subtotal.currency)
            && row.subtotal.amount == SumOfSubtotals(row.items)
            && Total(es) == Ok(Some(row.subtotal))
            && row.total.amount + row.discount.amount == row.subtotal.amount
            && 0 <= row.discount.amount <= row.subtotal.amount
            && row.total.currency == row.discount.currency == row.subtotal.currency
    ensures c.coupon.None? ==> DraftOf(db, c, o).value.row.discount.amount == 0
    ensures c.coupon.Some? ==>
              c.coupon.value in db.promos &&
              var promo, d := db.promos[c.coupon.value], DraftOf(db, c, o).value.row.discount.amount;
              && d == P.ComputeDiscount(promo, DraftOf(db, c, o).value.row.subtotal.amount, c.percent)
              && (promo.kind.FixedAmount? ==> d <= promo.value)
              && (promo.kind.Percentage? ==> d <= c.percent && (promo.maxDiscount.Some? ==> d <= promo.maxDiscount.value))
    ensures !SameKey(db.orders, c.user, c.key)
    ensures CanReserve(db.levels, QuantitiesOf(DraftOf(db, c, o).value.row.items))
  {
    hide QuantitiesOf, CanReserve, ItemsOf, Snapshot, SumOfSubtotals, Total, P.Reserve;
    var es := Snapshot(db.carts[c.user], c.catalog);
    PricedMeans(es, es[0].price.currency);
    if c.coupon.Some? {
      DraftDiscount(db, c, o);
    }
  }

  lemma DraftDiscount(db: Db, c: Checkout, o: OrderId)
    requires DraftOf(db, c, o).Ok? && c.coupon.Some?
    ensures c.coupon.value in db.promos
    ensures DraftOf(db, c, o).value.row.discount.amount ==
            P.ComputeDiscount(db.promos[c.coupon.value], DraftOf(db, c, o).value.row.subtotal.amount, c.percent)
  {
    hide QuantitiesOf, CanReserve, ItemsOf, Snapshot, Priced, P.ComputeDiscount;
  }

  /** Each item of a placed order is the cart line in its place, at the catalog's price. */
  lemma DraftItem(db: Db, c: Checkout, o: OrderId, i: nat)
    requires DraftOf(db, c, o).Ok? && i < |DraftOf(db, c, o).value.row.items|
    ensures c.user in db.carts && |db.carts[c.user]| == |DraftOf(db, c, o).value.row.items|
    ensures var line, it := db.carts[c.user][i], DraftOf(db, c, o).value.row.items[i];
            && line.product in c.catalog && c.catalog[line.product].published
            && it.product == line.product && it.quantity == line.quantity
            && it.price == c.catalog[line.product].price
            && it.subtotal.amount == line.quantity * it.price.amount && it.subtotal.currency == it.price.currency
  {
    hide DraftOf, QuantitiesOf, CanReserve, SumOfSubtotals, Total;
    DraftMeans(db, c, o);
    var es := Snapshot(db.carts[c.user], c.catalog);
    assert es[i] in es;
  }

  /** A line the shop sells at a price in `currency`. */
  predicate Buyable(line: Line, catalog: Catalog, currency: string) {
    line.product in catalog && catalog[line.product].published && catalog[line.product].price.currency == currency
  }

  lemma {:induction false} PricedExactly(es: seq<Entry>, currency: string)
    ensures Priced(es, currency).Ok? <==> forall e | e in es :: e.published && e.price.currency == currency
    ensures Priced(es, currency).Err? ==> Priced(es, currency).error == BadRequest
    decreases |es|
  {
    if es != [] {
      var front, last := es[..|es| - 1], es[|es| - 1];
      PricedExactly(front, currency);
      assert es == front + [last];
      if Priced(front, currency).Ok? {
        PricedMeans(front, currency);
      }
    }
  }

  /** The currency of an order: that of the first line's product. */
  function CurrencyOf(lines: seq<Line>, catalog: Catalog): string
    requires lines != []
  {
    if lines[0].product in catalog then catalog[lines[0].product].price.currency else ""
  }

  lemma RowExactly(carts: map<UserId, seq<Line>>, c: Checkout)
    ensures if c.user !in carts || carts[c.user] == [] then RowOf(carts, c) == Err(CartEmpty)
            else if exists l | l in carts[c.user] :: !Buyable(l, c.catalog, CurrencyOf(carts[c.user], c.catalog)) then
              RowOf(carts, c) == Err(BadRequest)
            else RowOf(carts, c).Ok?
  {
    hide ItemsOf, Priced;
    if c.user in carts && carts[c.user] != [] {
      var lines := carts[c.user];
      var es := Snapshot(lines, c.catalog);
      var currency := CurrencyOf(lines, c.catalog);
      assert es[0].price.currency == currency;
      PricedExactly(es, currency);
      if l :| l in lines && !Buyable(l, c.catalog, currency) {
        var i :| 0 <= i < |lines| && lines[i] == l;
        assert es[i] in es && !(es[i].published && es[i].price.currency == currency);
      } else {
        forall e | e in es ensures e.published && e.price.currency == currency {
          var i :| 0 <= i < |es| && es[i] == e;
          assert lines[i] in lines;
        }
      }
    }
  }

  /** When an order can be placed, and which error a placement gives otherwise, in the order the
      statements meet it. */
  lemma PlaceExactly(db: Db, c: Checkout, o: OrderId)
    ensures var d := DraftOf(db, c, o);
            if c.user !in db.carts || db.carts[c.user] == [] then d == Err(CartEmpty)
            else
              var lines := db.carts[c.user];
              if exists l | l in lines :: !Buyable(l, c.catalog, CurrencyOf(lines, c.catalog)) then d == Err(BadRequest)
              else if exists k | k in db.orders :: db.orders[k].user == c.user && db.orders[k].key == c.key then d == Err(Conflict)
              else
                RowOf(db.carts, c).Ok? &&
                var row := RowOf(db.carts, c).value;
                var q := QuantitiesOf(row.items);
                if row.subtotal.amount < 0 then d == Err(DatabaseError)
                else if exists p | p in q :: p !in db.levels || db.levels[p].available < q[p] then d == Err(InsufficientStock)
                else if exists it | it in row.items :: it.quantity <= 0 || it.subtotal.amount < 0 then d == Err(DatabaseError)
                else if c.coupon.None? then d.Ok?
                else
                  var claim := P.Reserve(db.promos, db.usages, c.coupon.value, c.user, o, row.subtotal.amount, c.percent, c.now, c.dbNow);
                  if claim.Err? then d == Err(claim.error)
                  else if claim.value.2 < 0 then d == Err(DatabaseError)
                  else d.Ok?
  {
    hide RowOf, QuantitiesOf, P.Reserve, Snapshot;
    RowExactly(db.carts, c);
    if c.coupon.Some? && RowOf(db.carts, c).Ok? {
      ClaimBounded(db, c, o, RowOf(db.carts, c).value.subtotal.amount);
    }
  }

  lemma ClaimBounded(db: Db, c: Checkout, o: OrderId, subtotal: int)
    requires c.coupon.Some?
    ensures var claim := P.Reserve(db.promos, db.usages, c.coupon.value, c.user, o, subtotal, c.percent, c.now, c.dbNow);
            claim.Ok? ==> claim.value.2 <= subtotal
  {
  }

  /** A committed Place inserts one order, moves exactly its quantities from available to
      reserved, records its coupon with the discount it got, and empties the cart. */
  lemma PlaceMoves(s: State, c: Checkout, o: OrderId)
    requires DraftOf(s.db, c, o).Ok? && o !in s.db.orders
    ensures var row, s1 := DraftOf(s.db, c, o).value.row, Place(s, c, o);
            && s1.db.orders == s.db.orders[o := row]
            && s1.db.carts.Keys == s.db.carts.Keys && s1.db.carts[c.user] == []
            && (forall u | u in s.db.carts && u != c.user :: s1.db.carts[u] == s.db.carts[u])
            && s1.db.levels.Keys == s.db.levels.Keys
            && (forall p | p in s.db.levels ::
                  s1.db.levels[p] == Level(s.db.levels[p].available - Qty(row, p), s.db.levels[p].reserved + Qty(row, p)))
            && s1.db.payments == s.db.payments && s1.db.shipments == s.db.shipments && s1.db.jobs == s.db.jobs && s1.h == s.h
    ensures var row, s1 := DraftOf(s.db, c, o).value.row, Place(s, c, o);
            if c.coupon.None? then s1.db.promos == s.db.promos && s1.db.usages == s.db.usages
            else
              var code := c.coupon.value;
              && code in s.db.promos && s1.db.promos.Keys == s.db.promos.Keys
              && s1.db.promos[code].used == s.db.promos[code].used + 1
              && s1.db.usages == s.db.usages[o := P.Usage(code, c.user, row.discount.amount)]
              && forall k | k in s.db.usages :: !(s.db.usages[k].code == code && s.db.usages[k].user == c.user)
  {
    hide QuantitiesOf, ItemsOf, Snapshot, SumOfSubtotals, Total, Priced;
    DraftMeans(s.db, c, o);
  }

  lemma DraftItems(db: Db, c: Checkout, o: OrderId)
    requires DraftOf(db, c, o).Ok? && CartsOk(db.carts)
    ensures forall it | it in DraftOf(db, c, o).value.row.items :: it.quantity > 0
    ensures DraftOf(db, c, o).value.row.items != []
  {
    hide QuantitiesOf, CanReserve, SumOfSubtotals, Total, P.Reserve;
    DraftMeans(db, c, o);
  }

  lemma DraftCoupons(db: Db, c: Checkout, o: OrderId)
    requires DraftOf(db, c, o).Ok? && P.Counted(db.promos, db.usages) && o !in db.usages
    ensures var d := DraftOf(db, c, o).value;
            && P.Counted(d.promos, d.usages)
            && d.usages.Keys == db.usages.Keys + (if c.coupon.Some? then {o} else {})
            && (forall k | k in db.usages :: d.usages[k] == db.usages[k])
            && (c.coupon.Some? ==> d.usages[o].code == c.coupon.value)
            && (c.coupon.None? ==> d.promos == db.promos)
  {
    hide QuantitiesOf, CanReserve, SumOfSubtotals, Snapshot, ItemsOf, Priced, P.Counted;
    DraftMeans(db, c, o);
    if c.coupon.Some? {
      var row := DraftOf(db, c, o).value.row;
      var subtotal := row.subtotal.amount;
      P.ReserveCounts(db.promos, db.usages, c.coupon.value, c.user, o, subtotal, c.percent, c.now, c.dbNow);
    }
  }

  lemma PlaceOrders(s: State, c: Checkout, o: OrderId)
    requires Core(s) && o !in s.db.orders && DraftOf(s.db, c, o).Ok?
    ensures OrderCore(Place(s, c, o).db.orders, Place(s, c, o).db.levels, s.h.snaps)
  {
    hide DraftOf, PayCore, CouponCore, DispatchOk, QuantitiesOf, SumOfSubtotals, Fits, Total;
    DraftMeans(s.db, c, o);
    DraftItems(s.db, c, o);
    var s1 := Place(s, c, o);
    assert RowOk(s1.db.orders[o]) by {
      FreshFits();
    }
    forall n | n in s.h.snaps ensures n.order in s1.db.orders && Evolves(n.row, s1.db.orders[n.order]) {
      assert n.order in s.db.orders;
    }
  }

  lemma FreshFits()
    ensures Fits(FRESH)
  {
  }

  lemma PlacePayments(s: State, c: Checkout, o: OrderId)
    requires Core(s) && o !in s.db.orders && DraftOf(s.db, c, o).Ok?
    ensures PayCore(Place(s, c, o).db.orders, s.db.payments, s.db.jobs, s.h.cleared)
  {
    hide DraftOf, OrderCore, CouponCore, DispatchOk, CartsOk, OneOfEach, JobsOk, ClearedOk, Reserved;
    var s1 := Place(s, c, o);
    forall p | p in s.db.payments ensures PaymentOk(s1.db.orders, s.db.payments[p]) {
      assert PaymentOk(s.db.orders, s.db.payments[p]);
    }
  }

  lemma PlaceCoupons(s: State, c: Checkout, o: OrderId)
    requires Core(s) && o !in s.db.orders && DraftOf(s.db, c, o).Ok?
    ensures CouponCore(Place(s, c, o).db.orders, Place(s, c, o).db.promos, Place(s, c, o).db.usages)
  {
    hide DraftOf, OrderCore, PayCore, DispatchOk, CartsOk, Reserved, P.Counted;
    DraftMeans(s.db, c, o);
    DraftCoupons(s.db, c, o);
  }

  lemma PlaceCore(s: State, c: Checkout, o: OrderId)
    requires Core(s) && o !in s.db.orders
    ensures Core(Place(s, c, o))
  {
    hide DraftOf, OrderCore, PayCore, CouponCore, Reserved;
    if DraftOf(s.db, c, o).Ok? {
      PlaceOrders(s, c, o);
      PlacePayments(s, c, o);
      PlaceCoupons(s, c, o);
      DraftMeans(s.db, c, o);
    }
  }

  lemma PlaceStock(s: State, c: Checkout, o: OrderId)
    requires Core(s) && Stock(s) && o !in s.db.orders
    ensures Stock(Place(s, c, o))
  {
    hide DraftOf, Core, LevelsOk, LedgerOk, QuantitiesOf, ItemsOf, Snapshot, Total, SumOfSubtotals;
    if DraftOf(s.db, c, o).Ok? {
      DraftMeans(s.db, c, o);
      LevelsSane(s);
      var s1 := Place(s, c, o);
      Unmoved(s, o);
      CoreDispatch(s, o);
      forall p | p in s.db.levels ensures s1.db.levels[p].available >= 0 && LevelFollows(s, s1, o, p) {
      }
      MoveKeepsStock(s, s1, o);
    }
  }

  lemma Unmoved(s: State, o: OrderId)
    requires Stock(s) && o !in s.db.orders
    ensures Count(s.h.deducts, o) == Count(s.h.releases, o) == Count(s.h.restocks, o) == 0
  {
    hide LevelsOk, StockedOk;
  }

  lemma CoreDispatch(s: State, o: OrderId)
    requires Core(s) && o !in s.db.orders
    ensures o !in s.h.dispatched && o !in s.db.usages && o !in s.db.shipments
  {
    hide OrderCore, PayCore, CartsOk;
  }
}
