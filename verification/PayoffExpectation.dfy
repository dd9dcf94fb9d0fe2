/**
 * The expected payoff of the swap under a finite distribution of settlement prices whose mean is the
 * entry price. Concavity alone does not make it non-negative: below the range the payoff stops
 * growing, so prices far enough below the range spoil it. The exact limit is proved here.
 */
module PayoffExpectation {
  import opened PositionValue
  import opened Reals

  /** One settlement price (by its root) and its probability. */
  datatype Chance = Chance(weight: real, root: real)

  ghost function Weight(d: seq<Chance>): real {
    if d == [] then 0.0 else Weight(d[1..]) + d[0].weight
  }

  ghost function MeanPrice(d: seq<Chance>): real {
    if d == [] then 0.0 else MeanPrice(d[1..]) + d[0].weight * (d[0].root * d[0].root)
  }

  ghost function Expected(d: seq<Chance>, s0: real, liquidity: real, a: real, b: real): real {
    if d == [] then 0.0
    else Expected(d[1..], s0, liquidity, a, b) + d[0].weight * LhPayoff(d[0].root, s0, liquidity, a, b)
  }

  /** A probability distribution over prices at or above x1*x1 with mean s0*s0. */
  ghost predicate FairFrom(d: seq<Chance>, x1: real, s0: real) {
    && (forall i :: 0 <= i < |d| ==> d[i].weight >= 0.0 && d[i].root >= x1)
    && Weight(d) == 1.0
    && MeanPrice(d) == s0 * s0
  }

  /** At every price from x1*x1 on, the capped value stays under the tangent at entry. */
  lemma CappedUnderTangent(x: real, x1: real, s0: real, a: real, b: real)
    requires 0.0 < a <= s0 < b && 0.0 <= x1 <= x
    requires UnitValue(a, a, b) <= Tangent(s0, x1, a, b)
    ensures UnitValue(Clamp(x, a, b), a, b) <= Tangent(s0, x, a, b)
  {
    hide Recip, Tangent;
    if x < a {
      TangentRises(s0, x1, x, a, b);
    } else {
      UnderEveryTangent(x, s0, a, b);
    }
  }

  /** The slope of V at entry. */
  ghost function EntrySlope(s0: real, liquidity: real, b: real): real
    requires 0.0 < s0 && 0.0 < b
  {
    liquidity * (Recip(s0) - Recip(b))
  }

  /** One price's payoff is at least what the tangent at entry promises. */
  lemma PayoffAboveTangent(x: real, x1: real, s0: real, liquidity: real, a: real, b: real)
    requires 0.0 < a <= s0 < b && 0.0 <= x1 <= x && liquidity >= 0.0
    requires UnitValue(a, a, b) <= Tangent(s0, x1, a, b)
    ensures LhPayoff(x, s0, liquidity, a, b) >= EntrySlope(s0, liquidity, b) * (s0 * s0 - x * x)
  {
    hide Recip, Tangent, UnitValue;
    CappedUnderTangent(x, x1, s0, a, b);
    TouchesTangent(s0, a, b);
    TangentMoves(s0, x, s0, a, b);
    var k, g := Recip(s0) - Recip(b), s0 * s0 - x * x;
    Scale(liquidity, k * g, UnitValue(s0, a, b) - UnitValue(Clamp(x, a, b), a, b));
    assert liquidity * (k * g) == liquidity * k * g;
  }

  lemma {:induction false} ExpectedAboveTangent(d: seq<Chance>, x1: real, s0: real, liquidity: real, a: real, b: real)
    requires 0.0 < a <= s0 < b && 0.0 <= x1 && liquidity >= 0.0
    requires UnitValue(a, a, b) <= Tangent(s0, x1, a, b)
    requires forall i :: 0 <= i < |d| ==> d[i].weight >= 0.0 && d[i].root >= x1
    ensures Expected(d, s0, liquidity, a, b)
            >= EntrySlope(s0, liquidity, b) * (s0 * s0 * Weight(d) - MeanPrice(d))
  {
    hide Recip, Tangent, UnitValue, LhPayoff, EntrySlope;
    if d != [] {
      var p, x, k, v := d[0].weight, d[0].root, EntrySlope(s0, liquidity, b), s0 * s0;
      ExpectedAboveTangent(d[1..], x1, s0, liquidity, a, b);
      PayoffAboveTangent(x, x1, s0, liquidity, a, b);
      Scale(p, k * (v - x * x), LhPayoff(x, s0, liquidity, a, b));
      Distribute(k, v, Weight(d[1..]), MeanPrice(d[1..]), p, x * x);
    }
  }

  lemma Distribute(k: real, v: real, w: real, m: real, p: real, y: real)
    ensures k * (v * (w + p) - (m + p * y)) == k * (v * w - m) + p * (k * (v - y))
  {
  }

  /**
   * When the tangent at entry, taken down to x1*x1, is below the value at the lower end, V rises from
   * entry to a price s2*s2 faster than the payoff at x1*x1 can make up for.
   */
  lemma BreakerGains(x1: real, s0: real, a: real, b: real) returns (s2: real)
    requires 0.0 < a < s0 < b && 0.0 <= x1 < s0
    requires UnitValue(a, a, b) > Tangent(s0, x1, a, b)
    ensures s0 < s2 <= b
    ensures (s0 * s0 - x1 * x1) * (UnitValue(s2, a, b) - UnitValue(s0, a, b))
            > (s2 * s2 - s0 * s0) * (UnitValue(s0, a, b) - UnitValue(a, a, b))
  {
    hide Recip, UnitValue, Tangent;
    var c, d := DropUnderSlope(x1, s0, a, b);
    s2 := Beyond(c, d, s0, a, b);
  }

  lemma Beyond(c: real, d: real, s0: real, a: real, b: real) returns (s2: real)
    requires 0.0 < a < s0 < b && 0.0 < d && 0.0 <= c < (Recip(s0) - Recip(b)) * d
    ensures s0 < s2 <= b
    ensures d * (UnitValue(s2, a, b) - UnitValue(s0, a, b)) > (s2 * s2 - s0 * s0) * c
  {
    hide Recip, UnitValue;
    var q := Quotient(c, d, Recip(s0) - Recip(b));
    var r;
    s2, r := Reach(q, s0, b);
    UnitGain(s0, s2, q, r, a, b);
    Rearrange(d, q, c, s2 * s2 - s0 * s0, UnitValue(s2, a, b) - UnitValue(s0, a, b));
  }

  lemma DropUnderSlope(x1: real, s0: real, a: real, b: real) returns (c: real, d: real)
    requires 0.0 < a < s0 < b && 0.0 <= x1 < s0
    requires UnitValue(a, a, b) > Tangent(s0, x1, a, b)
    ensures c == UnitValue(s0, a, b) - UnitValue(a, a, b) && d == s0 * s0 - x1 * x1
    ensures 0.0 < d && 0.0 <= c < (Recip(s0) - Recip(b)) * d
  {
    hide Recip, UnitValue, Tangent;
    c, d := UnitValue(s0, a, b) - UnitValue(a, a, b), s0 * s0 - x1 * x1;
    SquareStrict(x1, s0);
    UnitRises(a, s0, a, b);
    TouchesTangent(s0, a, b);
    TangentMoves(s0, x1, s0, a, b);
  }

  lemma Quotient(c: real, d: real, k: real) returns (q: real)
    requires 0.0 <= c < k * d && 0.0 < d
    ensures 0.0 <= q < k && q * d == c
  {
    hide Recip;
    q := c * Recip(d);
    Undo(c, d);
    Cancel(0.0, q, d);
    CancelStrict(q, k, d);
  }

  lemma Rearrange(d: real, q: real, c: real, e: real, g: real)
    requires 0.0 < d && c == q * d && g > q * e
    ensures d * g > e * c
  {
    ScaleStrict(d, q * e, g);
  }

  /** A slope under the tangent's leaves room above entry: the root s2 with (q + 1/b) s2 = 1. */
  lemma Reach(q: real, s0: real, b: real) returns (s2: real, r: real)
    requires 0.0 < s0 < b && 0.0 <= q < Recip(s0) - Recip(b)
    ensures r == q + Recip(b) && s0 < s2 <= b && r * s2 == 1.0 && r * s0 < 1.0
  {
    hide Recip;
    r := q + Recip(b);
    s2 := Recip(r);
    BelowInverse(r, s0, Recip(s0), 1.0);
    CancelStrict(s0, s2, r);
    AboveInverse(r, b, Recip(b), 1.0);
    Cancel(s2, b, r);
  }

  lemma BelowInverse(r: real, s: real, i: real, one: real)
    requires 0.0 < s && i * s == one && r < i
    ensures r * s < one
  {
    ScaleStrict(s, r, i);
  }

  lemma AboveInverse(r: real, s: real, i: real, one: real)
    requires 0.0 < s && i * s == one && i <= r
    ensures one <= r * s
  {
    Scale(s, i, r);
  }

  /** Between entry and that root V rises at a rate above q. */
  lemma UnitGain(s0: real, s2: real, q: real, r: real, a: real, b: real)
    requires 0.0 < a < s0 < s2 <= b
    requires r == q + Recip(b) && r * s2 == 1.0 && r * s0 < 1.0
    ensures UnitValue(s2, a, b) - UnitValue(s0, a, b) > q * (s2 * s2 - s0 * s0)
  {
    hide Recip, UnitValue;
    InRange(s2, a, b);
    InRange(s0, a, b);
    var i := Recip(b);
    Factored(s0, s2, q, r, i);
    assert (s2 * s2 - s0 * s0) * i == s2 * s2 * i - s0 * s0 * i;
  }

  lemma Factored(s0: real, s2: real, q: real, r: real, i: real)
    requires 0.0 < s0 < s2 && r == q + i && r * s2 == 1.0 && r * s0 < 1.0
    ensures 2.0 * (s2 - s0) - (s2 * s2 - s0 * s0) * i > q * (s2 * s2 - s0 * s0)
  {
    var u, w := s2 - s0, s2 + s0;
    Product(u, w, s0, s2);
    SumOfTwo(r, s0, s2);
    ScaleStrict(u, r * w, 2.0);
    Regroup(u, w, q, i);
  }

  lemma SumOfTwo(r: real, s0: real, s2: real)
    requires r * s2 == 1.0 && r * s0 < 1.0
    ensures r * (s2 + s0) < 2.0
  {
  }

  lemma Product(u: real, w: real, s0: real, s2: real)
    requires u == s2 - s0 && w == s2 + s0
    ensures s2 * s2 - s0 * s0 == u * w
  {
  }

  lemma Regroup(u: real, w: real, q: real, i: real)
    ensures u * ((q + i) * w) == q * (u * w) + u * w * i
  {
  }

  /** The in-range formula also gives the value at the upper end. */
  lemma InRange(s: real, a: real, b: real)
    requires 0.0 < a < s <= b
    ensures UnitValue(s, a, b) == 2.0 * s - s * s * Recip(b) - a
  {
    hide Recip;
    Undo(b, b);
    assert b * b * Recip(b) == b * Recip(b) * b;
  }

  lemma TwoChances(p: real, x: real, q: real, y: real, s0: real, liquidity: real, a: real, b: real)
    ensures var d := [Chance(p, x), Chance(q, y)];
            && Weight(d) == p + q
            && MeanPrice(d) == p * (x * x) + q * (y * y)
            && Expected(d, s0, liquidity, a, b)
               == p * LhPayoff(x, s0, liquidity, a, b) + q * LhPayoff(y, s0, liquidity, a, b)
  {
    hide LhPayoff;
    var d := [Chance(p, x), Chance(q, y)];
    assert d[1..] == [Chance(q, y)] && d[1..][1..] == [];
    assert Expected([], s0, liquidity, a, b) == 0.0 && Weight([]) == 0.0 && MeanPrice([]) == 0.0;
    assert Expected(d[1..], s0, liquidity, a, b) == q * LhPayoff(y, s0, liquidity, a, b);
    assert MeanPrice(d[1..]) == q * (y * y) && Weight(d[1..]) == q;
  }

  /** Probabilities inversely proportional to two distances. */
  lemma Balance(low: real, high: real, down: real, up: real) returns (p: real, q: real)
    requires 0.0 < low && 0.0 < high && high * down < low * up
    ensures 0.0 <= p && 0.0 <= q && p + q == 1.0 && p * low == q * high && p * down < q * up
  {
    hide Recip;
    var r := Recip(low + high);
    p, q := r * high, r * low;
    ScaleStrict(r, high * down, low * up);
  }

  lemma TwoPayoffs(x1: real, s2: real, s0: real, liquidity: real, a: real, b: real)
    requires 0.0 < a < s0 < s2 <= b && 0.0 <= x1 <= a && liquidity > 0.0
    ensures LhPayoff(x1, s0, liquidity, a, b) == liquidity * (UnitValue(s0, a, b) - UnitValue(a, a, b))
    ensures LhPayoff(s2, s0, liquidity, a, b) == -(liquidity * (UnitValue(s2, a, b) - UnitValue(s0, a, b)))
  {
    hide UnitValue;
  }

  /** Two prices around entry, weighted so that their mean is the entry price. */
  lemma TwoPoint(x1: real, s2: real, s0: real, liquidity: real, a: real, b: real) returns (d: seq<Chance>)
    requires 0.0 < a < s0 < s2 <= b && 0.0 <= x1 <= a && liquidity > 0.0
    requires (s0 * s0 - x1 * x1) * (UnitValue(s2, a, b) - UnitValue(s0, a, b))
             > (s2 * s2 - s0 * s0) * (UnitValue(s0, a, b) - UnitValue(a, a, b))
    ensures FairFrom(d, x1, s0)
    ensures Expected(d, s0, liquidity, a, b) < 0.0
  {
    hide UnitValue, LhPayoff, Weight, MeanPrice, Expected;
    var low, high := s0 * s0 - x1 * x1, s2 * s2 - s0 * s0;
    SquareStrict(x1, s0);
    SquareStrict(s0, s2);
    var down, up := UnitValue(s0, a, b) - UnitValue(a, a, b), UnitValue(s2, a, b) - UnitValue(s0, a, b);
    var p, q := Balance(low, high, down, up);
    d := [Chance(p, x1), Chance(q, s2)];
    TwoChances(p, x1, q, s2, s0, liquidity, a, b);
    MeanOfTwo(p, q, x1 * x1, s2 * s2, s0 * s0);
    TwoPayoffs(x1, s2, s0, liquidity, a, b);
    Negative(p, q, liquidity, down, up);
  }

  lemma Negative(p: real, q: real, liquidity: real, down: real, up: real)
    requires liquidity > 0.0 && p * down < q * up
    ensures p * (liquidity * down) + q * -(liquidity * up) < 0.0
  {
    ScaleStrict(liquidity, p * down, q * up);
    assert p * (liquidity * down) == liquidity * (p * down) && q * (liquidity * up) == liquidity * (q * up);
  }

  lemma MeanOfTwo(p: real, q: real, x: real, y: real, v: real)
    requires p + q == 1.0 && p * (v - x) == q * (y - v)
    ensures p * x + q * y == v
  {
    TimesOne(v, p + q);
    assert v * (p + q) == p * v + q * v;
  }

  /** Only prices under the range can fall under that limit. */
  lemma BelowRange(x1: real, s0: real, a: real, b: real)
    requires 0.0 < a < s0 < b && 0.0 <= x1
    requires UnitValue(a, a, b) > Tangent(s0, x1, a, b)
    ensures x1 < a
  {
    hide Recip, UnitValue, Tangent;
    UnderEveryTangent(a, s0, a, b);
    if a <= x1 {
      TangentRises(s0, a, x1, a, b);
    }
  }

  /** Down to that limit every distribution is fair to the pool's counterparty. */
  lemma FairAboveLimit(d: seq<Chance>, x1: real, s0: real, liquidity: real, a: real, b: real)
    requires 0.0 < a < s0 < b && 0.0 <= x1 && liquidity >= 0.0
    requires UnitValue(a, a, b) <= Tangent(s0, x1, a, b)
    requires FairFrom(d, x1, s0)
    ensures Expected(d, s0, liquidity, a, b) >= 0.0
  {
    hide Recip, UnitValue, Tangent, EntrySlope, Expected, Weight, MeanPrice;
    ExpectedAboveTangent(d, x1, s0, liquidity, a, b);
    TimesOne(s0 * s0, Weight(d));
    assert EntrySlope(s0, liquidity, b) * 0.0 == 0.0;
  }

  /** Past it some distribution of two prices is not. */
  lemma UnfairBelowLimit(x1: real, s0: real, liquidity: real, a: real, b: real) returns (d: seq<Chance>)
    requires 0.0 < a < s0 < b && 0.0 <= x1 && liquidity > 0.0
    requires UnitValue(a, a, b) > Tangent(s0, x1, a, b)
    ensures FairFrom(d, x1, s0) && Expected(d, s0, liquidity, a, b) < 0.0
  {
    hide *;
    BelowRange(x1, s0, a, b);
    var s2 := BreakerGains(x1, s0, a, b);
    d := TwoPoint(x1, s2, s0, liquidity, a, b);
  }

  /**
   * The exact limit. Every distribution of prices from x1*x1 up with mean the entry price gives the
   * swap a non-negative expected payoff if and only if the tangent to V at entry, followed down to
   * x1*x1, has not fallen under the value at the lower end of the range.
   */
  lemma FairValueNonNegativeExactly(x1: real, s0: real, liquidity: real, a: real, b: real)
    requires 0.0 < a < s0 < b && 0.0 <= x1 && liquidity > 0.0
    ensures (forall d :: FairFrom(d, x1, s0) ==> Expected(d, s0, liquidity, a, b) >= 0.0)
            <==> UnitValue(a, a, b) <= Tangent(s0, x1, a, b)
  {
    hide *;
    if UnitValue(a, a, b) <= Tangent(s0, x1, a, b) {
      forall d | FairFrom(d, x1, s0)
        ensures Expected(d, s0, liquidity, a, b) >= 0.0
      {
        FairAboveLimit(d, x1, s0, liquidity, a, b);
      }
    } else {
      var d := UnfairBelowLimit(x1, s0, liquidity, a, b);
    }
  }

  /** In particular it is non-negative when no price is below the range, however far some are above it. */
  lemma FairValueFromRange(d: seq<Chance>, s0: real, liquidity: real, a: real, b: real)
    requires 0.0 < a < s0 < b && liquidity >= 0.0
    requires FairFrom(d, a, s0)
    ensures Expected(d, s0, liquidity, a, b) >= 0.0
  {
    hide *;
    UnderEveryTangent(a, s0, a, b);
    FairAboveLimit(d, a, s0, liquidity, a, b);
  }

  /**
   * An actual range past its limit: a price of 1 with a range from 0.81 to 1.21, and prices down to
   * 0.64. A distribution with mean 1 gives the swap a negative expected payoff.
   */
  lemma UnfairSample() returns (d: seq<Chance>)
    ensures UnitValue(0.9, 0.9, 1.1) > Tangent(1.0, 0.8, 0.9, 1.1)
    ensures FairFrom(d, 0.8, 1.0) && Expected(d, 1.0, 1.0, 0.9, 1.1) < 0.0
  {
    assert UnitValue(0.9, 0.9, 1.1) > Tangent(1.0, 0.8, 0.9, 1.1) by {
      var i, k := Recip(0.9), Recip(1.1);
      assert i == 1.0 / 0.9 && k == 1.0 / 1.1 && Recip(1.0) == 1.0;
    }
    d := UnfairBelowLimit(0.8, 1.0, 1.0, 0.9, 1.1);
  }
}
