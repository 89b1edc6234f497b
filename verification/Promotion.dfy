/** Coupons (internal/features/promotion). A coupon is identified by its code. */
module Promotion {
  import opened Common

  /** Codes are compared and never inspected, so a number stands for each. */
  type Code = nat

  datatype Kind = Percentage | FixedAmount

  datatype Promo = Promo(
    kind: Kind,
    value: int,
    minOrder: int,
    maxDiscount: Option<int>,
    maxUses: Option<int>,
    used: int,
    startsAt: int,
    expiresAt: int,
    active: bool)

  datatype Usage = Usage(code: Code, user: nat, discount: int)

  function Validate(promo: Promo, amount: int, now: int): Option<Error> {
    if !promo.active || now < promo.startsAt || now > promo.expiresAt then Some(BadRequest)
    else if promo.maxUses.Some? && promo.used >= promo.maxUses.value then Some(CouponExhausted)
    else if amount < promo.minOrder then Some(BadRequest)
    else None
  }

  /** ComputeDiscount, with `percent` standing for the floored float64 product of its
      percentage branch; module Discount determines that number. */
  function ComputeDiscount(promo: Promo, subtotal: int, percent: int): int {
    var raw :=
      match promo.kind
      case Percentage =>
        if promo.maxDiscount.Some? && percent > promo.maxDiscount.value then promo.maxDiscount.value else percent
      case FixedAmount => promo.value;
    if raw > subtotal then subtotal else raw
  }

  /** The guard of ApplyPromotion's UPDATE. */
  predicate Claimable(promo: Promo, now: int) {
    promo.active && (promo.maxUses.Some? ==> promo.used < promo.maxUses.value) && promo.startsAt <= now <= promo.expiresAt
  }

  type Promos = map<Code, Promo>

  type Usages = map<nat, Usage>

  /** The UPDATE of ApplyPromotion. */
  function OneMore(promos: Promos, code: Code): Promos
    requires code in promos
  {
    promos[code := promos[code].(used := promos[code].used + 1)]
  }

  /** Reserve: validate, price, claim one use, record the usage row of order `o`. The two
      clocks are the service's (`now`) and the database's (`dbNow`). */
  function Reserve(promos: Promos, usages: Usages, code: Code, user: nat, o: nat, subtotal: int,
                   percent: int, now: int, dbNow: int): Result<(Promos, Usages, int)>
  {
    if code !in promos then Err(NotFound)
    else
      var promo := promos[code];
      var refusal := Validate(promo, subtotal, now);
      if refusal.Some? then Err(refusal.value)
      else if !Claimable(promo, dbNow) then Err(CouponExhausted)
      else if exists k | k in usages :: usages[k].code == code && usages[k].user == user then Err(Conflict)
      else
        var discount := ComputeDiscount(promo, subtotal, percent);
        Ok((OneMore(promos, code), usages[o := Usage(code, user, discount)], discount))
  }

  /** Release: delete the usage row of order `o`, if any, then give the use back. */
  function ReleasedPromos(promos: Promos, usages: Usages, o: nat): Promos {
    if o in usages && usages[o].code in promos && promos[usages[o].code].used > 0
    then promos[usages[o].code := promos[usages[o].code].(used := promos[usages[o].code].used - 1)]
    else promos
  }

  function ReleasedUsages(usages: Usages, o: nat): Usages {
    usages - {o}
  }

  /** The usage rows of one coupon. */
  ghost function Holders(usages: Usages, code: Code): set<nat> {
    set o | o in usages && usages[o].code == code
  }

  ghost predicate Counted(promos: Promos, usages: Usages) {
    && (forall o | o in usages :: usages[o].code in promos)
    && (forall c | c in promos :: promos[c].used == |Holders(usages, c)|)
  }

  lemma HoldersAdd(usages: Usages, o: nat, u: Usage, c: Code)
    requires o !in usages
    ensures |Holders(usages[o := u], c)| == |Holders(usages, c)| + if c == u.code then 1 else 0
  {
    if c == u.code {
      assert Holders(usages[o := u], c) == Holders(usages, c) + {o};
      assert o !in Holders(usages, c);
    } else {
      assert Holders(usages[o := u], c) == Holders(usages, c);
    }
  }

  lemma CountOneMore(promos: Promos, usages: Usages, o: nat, u: Usage)
    requires Counted(promos, usages) && o !in usages && u.code in promos
    ensures Counted(OneMore(promos, u.code), usages[o := u])
  {
    var p1 := OneMore(promos, u.code);
    forall c | c in p1 ensures p1[c].used == |Holders(usages[o := u], c)| {
      HoldersAdd(usages, o, u, c);
    }
  }

  lemma ReserveCounts(promos: Promos, usages: Usages, code: Code, user: nat, o: nat, subtotal: int,
                      percent: int, now: int, dbNow: int)
    requires Counted(promos, usages) && o !in usages
    requires Reserve(promos, usages, code, user, o, subtotal, percent, now, dbNow).Ok?
    ensures var (p1, u1, discount) := Reserve(promos, usages, code, user, o, subtotal, percent, now, dbNow).value;
            && Counted(p1, u1)
            && p1.Keys == promos.Keys
            && u1.Keys == usages.Keys + {o}
            && u1[o].code == code
            && (promos[code].maxUses.Some? ==> p1[code].used <= promos[code].maxUses.value)
            && discount <= subtotal
  {
    CountOneMore(promos, usages, o, Usage(code, user, ComputeDiscount(promos[code], subtotal, percent)));
  }

  /** What a discount may be: never more than the subtotal; for a percentage coupon the percentage,
      cut to the maximum when one is set; for a fixed amount its value. */
  lemma DiscountMeans(promo: Promo, subtotal: int, percent: int)
    ensures var d := ComputeDiscount(promo, subtotal, percent);
            && d <= subtotal
            && (promo.kind.FixedAmount? ==> d <= promo.value && d in {promo.value, subtotal})
            && (promo.kind.Percentage? ==>
                  && d <= percent
                  && (promo.maxDiscount.Some? ==> d <= promo.maxDiscount.value && d in {percent, promo.maxDiscount.value, subtotal})
                  && (promo.maxDiscount.None? ==> d in {percent, subtotal}))
  {
  }

  /** Who may claim a coupon, and what stops everyone else, in the order it is looked for. `now`
      is the service's clock and `dbNow` the database's. */
  lemma ReserveExactly(promos: Promos, usages: Usages, code: Code, user: nat, o: nat, subtotal: int,
                       percent: int, now: int, dbNow: int)
    ensures var r := Reserve(promos, usages, code, user, o, subtotal, percent, now, dbNow);
            if code !in promos then r == Err(NotFound)
            else
              var promo := promos[code];
              var open := promo.active && promo.startsAt <= now <= promo.expiresAt;
              var spent := promo.maxUses.Some? && promo.maxUses.value <= promo.used;
              var had := exists k :: k in usages && usages[k].code == code && usages[k].user == user;
              if !open then r == Err(BadRequest)
              else if spent then r == Err(CouponExhausted)
              else if subtotal < promo.minOrder then r == Err(BadRequest)
              else if dbNow < promo.startsAt || promo.expiresAt < dbNow then r == Err(CouponExhausted)
              else if had then r == Err(Conflict)
              else r.Ok? && r.value.2 == ComputeDiscount(promo, subtotal, percent)
  {
  }

  /** Release keeps the count, its `used_count > 0` guard never blocks, and a second release
      of the same order changes nothing. */
  lemma ReleaseCounts(promos: Promos, usages: Usages, o: nat)
    requires Counted(promos, usages)
    ensures Counted(ReleasedPromos(promos, usages, o), ReleasedUsages(usages, o))
    ensures o in usages ==>
              && promos[usages[o].code].used > 0
              && ReleasedPromos(promos, usages, o)[usages[o].code].used == promos[usages[o].code].used - 1
    ensures var p1, u1 := ReleasedPromos(promos, usages, o), ReleasedUsages(usages, o);
            ReleasedPromos(p1, u1, o) == p1 && ReleasedUsages(u1, o) == u1
  {
    var u1 := ReleasedUsages(usages, o);
    assert u1 - {o} == u1;
    if o in usages {
      var code := usages[o].code;
      assert o in Holders(usages, code);
      forall c | c in promos ensures ReleasedPromos(promos, usages, o)[c].used == |Holders(u1, c)| {
        if c == code {
          assert Holders(u1, c) == Holders(usages, c) - {o};
        } else {
          assert Holders(u1, c) == Holders(usages, c);
        }
      }
    } else {
      assert u1 == usages;
    }
  }
}
