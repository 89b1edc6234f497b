/** The floating-point branch of ComputeDiscount
    (internal/features/promotion/domain/promotion.go). */
module Discount {
  import opened Promotion

  const TWO_53: int := 0x20_0000_0000_0000

  const TWO_54: int := 0x40_0000_0000_0000

  const TWO_63: int := 0x8000_0000_0000_0000

  /** What is used of float64 rounding (IEEE 754-2019, section 4.3.1): the result is within a
      relative error of 2^-53 over the range needed here, and integers up to 2^53 are exact. */
  ghost predicate Rounds(fl: real -> real) {
    (forall x: real :: 0.001 <= x <= 1.0e40 ==> Near(fl(x), x)) &&
    (forall n: int :: 0 <= n <= TWO_53 ==> Exact(fl, n))
  }

  ghost predicate Exact(fl: real -> real, n: int) {
    fl(n as real) == n as real
  }

  predicate Near(y: real, x: real) {
    (y - x) * TWO_53 as real <= x && (x - y) * TWO_53 as real <= x
  }

  function Times(x: real, y: real): real { x * y }

  /** math.Floor(float64(subtotal) * float64(value) / 100), each operation rounded by `fl`. */
  ghost function Percent(fl: real -> real, subtotal: int, value: int): int {
    fl(fl(Times(fl(subtotal as real), fl(value as real))) / 100.0).Floor
  }

  /** A hundredth of an integer, rounded, has the same floor. */
  lemma HundredthFloors(fl: real -> real, p: int)
    requires Rounds(fl) && 0 <= p < TWO_53
    ensures fl(p as real / 100.0).Floor == p / 100
  {
    var q, k := p as real / 100.0, p / 100;
    assert p as real == k as real * 100.0 + (p % 100) as real;
    if p % 100 == 0 {
      assert Exact(fl, k);
      assert q == k as real;
    } else {
      assert q >= 0.01;
      assert Near(fl(q), q);
      assert k as real + 0.01 <= q <= k as real + 0.99;
      assert q < TWO_53 as real / 100.0;
      assert k as real < fl(q) < k as real + 1.0;
    }
  }

  /** The float64 computation is the exact floor of `subtotal * value / 100` whenever the product
      is below 2^53, however the machine rounds. */
  lemma PercentIsExact(fl: real -> real, subtotal: int, value: int)
    requires Rounds(fl) && 0 <= subtotal < TWO_63 && 0 <= value < TWO_63 && subtotal * value < TWO_53
    ensures Percent(fl, subtotal, value) == subtotal * value / 100
  {
    var p := subtotal * value;
    ProductIsExact(fl, subtotal, value);
    HundredthFloors(fl, p);
  }

  /** Past 2^53 the floor can be one too high. `fl` rounds 2^53 + 7 to the even neighbour, as
      rounding to nearest with ties to even does, and keeps what is already rounded. */
  lemma PercentIsHighPast53(fl: real -> real)
    requires Rounds(fl)
    requires fl(9007199254740999.0) == 9007199254741000.0 == fl(9007199254741000.0)
    ensures 9007199254740999 == TWO_53 + 7
    ensures Percent(fl, 9007199254740999, 1) == 9007199254740999 * 1 / 100 + 1
  {
    IntegersAreExact(fl, 1);
    IntegersAreExact(fl, 90071992547410);
    assert Times(9007199254741000.0, 1.0) == 9007199254741000.0;
  }

  /** An integer between 2^53 and 2^54 rounded to nearest, ties to even. */
  function Evened(n: int): int {
    if n % 2 == 0 then n else if n % 4 == 3 then n + 1 else n - 1
  }

  ghost predicate TiesToEven(fl: real -> real) {
    forall n: int :: TWO_53 <= n <= TWO_54 ==> RoundsTo(fl, n, Evened(n))
  }

  ghost predicate RoundsTo(fl: real -> real, n: int, m: int) {
    fl(n as real) == m as real
  }

  lemma EvenedAt(fl: real -> real, n: int)
    requires TiesToEven(fl) && TWO_53 <= n <= TWO_54
    ensures fl(n as real) == Evened(n) as real
  {
    hide Evened;
    assert RoundsTo(fl, n, Evened(n));
  }

  lemma EvenedRange(n: int)
    requires TWO_53 <= n <= TWO_54
    ensures TWO_53 <= Evened(n) <= TWO_54 && Evened(n) % 2 == 0 && Evened(Evened(n)) == Evened(n)
  {
  }

  lemma HalvedBelow(a: int, b: int)
    requires 2 <= a && 2 <= b
    ensures 2 * a <= a * b && 2 * b <= a * b
  {
  }

  /** On the next binade the product is rounded once, to an even integer. */
  lemma ProductIsEvened(fl: real -> real, subtotal: int, value: int)
    requires Rounds(fl) && TiesToEven(fl) && 1 <= subtotal && 1 <= value && TWO_53 <= subtotal * value < TWO_54
    ensures fl(Times(fl(subtotal as real), fl(value as real))) == Evened(subtotal * value) as real
  {
    hide Rounds, TiesToEven, Evened;
    var p := subtotal * value;
    EvenedRange(p);
    EvenedAt(fl, p);
    if subtotal == 1 || value == 1 {
      IntegersAreExact(fl, 1);
      EvenedAt(fl, Evened(p));
      assert Times(fl(subtotal as real), fl(value as real)) == Evened(p) as real;
    } else {
      HalvedBelow(subtotal, value);
      IntegersAreExact(fl, subtotal);
      IntegersAreExact(fl, value);
      RealProduct(subtotal, value);
      assert Times(fl(subtotal as real), fl(value as real)) == p as real;
    }
  }

  /** Rounding moves a fraction between 0.02 and 0.98 across no integer. */
  lemma NearKeepsFloor(y: real, q: real, k: int, r: real)
    requires Near(y, q) && q == k as real + r && 0.02 <= r <= 0.98 && 0.0 <= q * 100.0 <= TWO_54 as real
    requires r == 0.98 ==> q * 100.0 < TWO_54 as real
    ensures y.Floor == k
  {
    assert (y - q) * 100.0 <= 2.0 && (q - y) * 100.0 <= 2.0;
  }

  lemma EvenResidue(m: int)
    requires m % 2 == 0
    ensures m == 100 * (m / 100) + m % 100 && (m % 100 == 0 || 2 <= m % 100 <= 98)
    ensures m == TWO_54 ==> m % 100 == 84
  {
  }

  lemma HundredthParts(m: int, k: int, r: int)
    requires m == 100 * k + r
    ensures m as real / 100.0 == k as real + r as real / 100.0
  {
  }

  lemma EvenHundredthFloors(fl: real -> real, m: int)
    requires Rounds(fl) && TWO_53 <= m <= TWO_54 && m % 2 == 0
    ensures fl(m as real / 100.0).Floor == m / 100
  {
    EvenResidue(m);
    EvenPartsFloor(fl, m, m / 100, m % 100);
  }

  lemma EvenPartsFloor(fl: real -> real, m: int, k: int, r: int)
    requires Rounds(fl) && TWO_53 <= m <= TWO_54 && m == 100 * k + r
    requires (r == 0 || 2 <= r <= 98) && (m == TWO_54 ==> r == 84)
    ensures fl(m as real / 100.0).Floor == k
  {
    hide Near;
    HundredthParts(m, k, r);
    if r == 0 {
      assert Exact(fl, k);
    } else {
      NearKeepsFloor(fl(m as real / 100.0), m as real / 100.0, k, r as real / 100.0);
    }
  }

  lemma EvenedHundredth(p: int)
    requires TWO_53 <= p < TWO_54
    ensures Evened(p) / 100 == p / 100 + if p % 100 == 99 then 1 else 0
  {
  }

  /** Between 2^53 and 2^54 the floor is exact unless the product ends in 99, and then it is one too
      high. */
  lemma PercentPast53Exactly(fl: real -> real, subtotal: int, value: int)
    requires Rounds(fl) && TiesToEven(fl) && 0 <= subtotal && 0 <= value && TWO_53 <= subtotal * value < TWO_54
    ensures Percent(fl, subtotal, value) == subtotal * value / 100 + if subtotal * value % 100 == 99 then 1 else 0
  {
    hide Rounds, TiesToEven, Times, Evened;
    var p := subtotal * value;
    EvenedRange(p);
    ProductIsEvened(fl, subtotal, value);
    EvenHundredthFloors(fl, Evened(p));
    EvenedHundredth(p);
  }

  lemma {:induction false} RealProduct(a: nat, b: int)
    ensures (a * b) as real == a as real * b as real
  {
    if a > 0 {
      RealProduct(a - 1, b);
      assert a * b == (a - 1) * b + b;
      assert a as real == (a - 1) as real + 1.0;
      assert a as real * b as real == (a - 1) as real * b as real + b as real;
    }
  }

  lemma IntegersAreExact(fl: real -> real, n: int)
    requires Rounds(fl) && 0 <= n <= TWO_53
    ensures fl(n as real) == n as real
  {
    assert Exact(fl, n);
  }

  lemma FactorsBelow(a: int, b: int)
    requires 1 <= a && 1 <= b
    ensures a <= a * b && b <= a * b
  {
  }

  lemma ProductIsExact(fl: real -> real, subtotal: int, value: int)
    requires Rounds(fl) && 0 <= subtotal && 0 <= value && subtotal * value < TWO_53
    ensures fl(Times(fl(subtotal as real), fl(value as real))) == (subtotal * value) as real
  {
    hide Rounds;
    var p := subtotal * value;
    if subtotal == 0 || value == 0 {
      IntegersAreExact(fl, 0);
      assert Times(fl(subtotal as real), fl(value as real)) == 0.0;
    } else {
      FactorsBelow(subtotal, value);
      IntegersAreExact(fl, subtotal);
      IntegersAreExact(fl, value);
      RealProduct(subtotal, value);
      assert Times(fl(subtotal as real), fl(value as real)) == p as real;
    }
    IntegersAreExact(fl, p);
  }

  /** Whatever the operands, the rounded percentage is not negative. */
  lemma PercentIsNotNegative(fl: real -> real, subtotal: int, value: int)
    requires Rounds(fl) && 0 <= subtotal < TWO_63 && 0 <= value < TWO_63
    ensures Percent(fl, subtotal, value) >= 0
  {
    hide Rounds, Times;
    if subtotal == 0 || value == 0 {
      PercentIsExact(fl, subtotal, value);
    } else {
      RoundedIsClose(fl, subtotal as real);
      RoundedIsClose(fl, value as real);
      ProductIsPositive(fl, fl(subtotal as real), fl(value as real));
      HundredthIsNotNegative(fl, fl(Times(fl(subtotal as real), fl(value as real))));
    }
  }

  lemma RoundedIsClose(fl: real -> real, x: real)
    requires Rounds(fl) && 0.001 <= x <= 1.0e40
    ensures x * 0.9 <= fl(x) <= x * 1.1
  {
    assert Near(fl(x), x);
  }

  lemma HundredthIsNotNegative(fl: real -> real, x: real)
    requires Rounds(fl) && 0.5 <= x <= 1.0e40
    ensures fl(x / 100.0).Floor >= 0
  {
    RoundedIsClose(fl, x / 100.0);
  }

  lemma ProductIsPositive(fl: real -> real, s: real, v: real)
    requires Rounds(fl) && 0.9 <= s <= 1.1e19 && 0.9 <= v <= 1.1e19
    ensures 0.5 <= fl(Times(s, v)) <= 1.0e40
  {
    ProductRange(s, v);
    RoundedIsClose(fl, Times(s, v));
  }

  lemma ProductRange(s: real, v: real)
    requires 0.9 <= s <= 1.1e19 && 0.9 <= v <= 1.1e19
    ensures 0.81 <= Times(s, v) <= 1.3e38
  {
    assert 0.9 * 0.9 <= s * 0.9 <= s * v;
    assert s * v <= 1.1e19 * v <= 1.1e19 * 1.1e19;
  }

  /** The conversion to int64 of a number that is not negative. The language leaves one that does
      not fit to the machine, here `outside`. */
  function Int64(n: int, outside: int): int {
    if n < TWO_63 then n else outside
  }

  /** With a value and a maximum that are not negative, a discount whose percentage fits int64
      lies between zero and the subtotal. */
  lemma DiscountIsBounded(fl: real -> real, promo: Promo, subtotal: int, outside: int)
    requires Rounds(fl) && 0 <= subtotal < TWO_63 && 0 <= promo.value < TWO_63
    requires promo.maxDiscount.Some? ==> promo.maxDiscount.value >= 0
    requires promo.kind.Percentage? ==> Percent(fl, subtotal, promo.value) < TWO_63
    ensures 0 <= ComputeDiscount(promo, subtotal, Int64(Percent(fl, subtotal, promo.value), outside)) <= subtotal
  {
    PercentIsNotNegative(fl, subtotal, promo.value);
  }

  /** On a machine that converts what does not fit to a negative number, exactly those. */
  lemma DiscountIsBoundedExactly(fl: real -> real, promo: Promo, subtotal: int, outside: int)
    requires Rounds(fl) && 0 <= subtotal < TWO_63 && 0 <= promo.value < TWO_63
    requires promo.maxDiscount.Some? ==> promo.maxDiscount.value >= 0
    requires promo.kind.Percentage? && outside < 0
    ensures 0 <= ComputeDiscount(promo, subtotal, Int64(Percent(fl, subtotal, promo.value), outside)) <= subtotal <==>
            Percent(fl, subtotal, promo.value) < TWO_63
  {
    PercentIsNotNegative(fl, subtotal, promo.value);
  }

  lemma AtMostHundredfold(s: real, v: real)
    requires 0.0 <= s && 0.0 <= v <= 100.0
    ensures Times(s, v) <= s * 100.0
  {
  }

  /** The percentage fits int64 for every value the validators accept and any subtotal up to 2^62. */
  lemma PercentFits(fl: real -> real, subtotal: int, value: int)
    requires Rounds(fl) && 0 <= subtotal <= TWO_63 / 2 && 0 <= value <= 100
    ensures Percent(fl, subtotal, value) < TWO_63
  {
    hide Rounds, Times;
    if subtotal == 0 || value == 0 {
      PercentIsExact(fl, subtotal, value);
    } else {
      IntegersAreExact(fl, value);
      RoundedIsClose(fl, subtotal as real);
      RoundedIsClose(fl, value as real);
      AtMostHundredfold(fl(subtotal as real), fl(value as real));
      ProductRangeOf(fl, fl(subtotal as real), fl(value as real));
      RoundedIsClose(fl, fl(Times(fl(subtotal as real), fl(value as real))) / 100.0);
    }
  }

  lemma ProductRangeOf(fl: real -> real, s: real, v: real)
    requires Rounds(fl) && 0.9 <= s <= 1.1e19 && 0.9 <= v <= 1.1e19
    ensures 0.5 <= fl(Times(s, v)) <= 1.0e40 && fl(Times(s, v)) <= Times(s, v) * 1.1
  {
    ProductRange(s, v);
    RoundedIsClose(fl, Times(s, v));
  }
}
