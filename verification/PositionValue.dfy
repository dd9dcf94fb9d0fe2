/**
 * The value of a concentrated-liquidity position and the signed swap written on it, in exact
 * arithmetic. A price S is given by its square root s, a range [pL, pU] by the roots a and b of its
 * ends, so that every non-negative price is covered and no square root has to be taken.
 */
module PositionValue {
  import opened Reals

  function Min(x: real, y: real): real { if x <= y then x else y }

  function Max(x: real, y: real): real { if x >= y then x else y }

  function Clamp(s: real, a: real, b: real): real { Max(a, Min(b, s)) }

  /** V(S) per unit of liquidity on a proper range: linear, then strictly concave, then flat. */
  function UnitValue(s: real, a: real, b: real): real
    requires 0.0 < a < b
  {
    if s <= a then (s * s) * (Recip(a) - Recip(b))
    else if s >= b then b - a
    else 2.0 * s - s * s * Recip(b) - a
  }

  function ClPositionValue(s: real, liquidity: real, a: real, b: real): real {
    if liquidity == 0.0 || a <= 0.0 || b <= a then 0.0 else liquidity * UnitValue(s, a, b)
  }

  function NaturalCap(s0: real, liquidity: real, a: real, b: real): real {
    Max(0.0, ClPositionValue(s0, liquidity, a, b) - ClPositionValue(a, liquidity, a, b))
  }

  function NaturalCapUp(s0: real, liquidity: real, a: real, b: real): real {
    Max(0.0, ClPositionValue(b, liquidity, a, b) - ClPositionValue(s0, liquidity, a, b))
  }

  function LhPayoff(sT: real, s0: real, liquidity: real, a: real, b: real): real {
    ClPositionValue(s0, liquidity, a, b) - ClPositionValue(Clamp(sT, a, b), liquidity, a, b)
  }

  /**
   * V is what the position holds: with c the root of the price held to the range, L * (c - a) of the quote
   * token and L * (1/c - 1/b) of the other, at the price.
   */
  lemma ValueIsHoldings(s: real, liquidity: real, a: real, b: real)
    requires 0.0 <= s && 0.0 < a < b
    ensures var c := Clamp(s, a, b);
            c > 0.0 && ClPositionValue(s, liquidity, a, b) == liquidity * ((c - a) + s * s * (Recip(c) - Recip(b)))
  {
    var c := Clamp(s, a, b);
    if s <= a {
      assert c == a;
    } else if s >= b {
      assert c == b;
    } else {
      var r := Recip(s);
      Undo(s, s);
      assert s * s * r == s * r * s;
      assert s * s * (r - Recip(b)) == s * s * r - s * s * Recip(b);
    }
  }

  // -------------------------------------------------------------------------
  // V is the lower envelope of its tangent lines
  // -------------------------------------------------------------------------

  /** The tangent to V at the price m*m, evaluated at the price x*x. */
  function Tangent(m: real, x: real, a: real, b: real): real
    requires 0.0 < a <= m <= b
  {
    m - a + x * x * (Recip(m) - Recip(b))
  }

  /** V lies under every one of its tangents. */
  lemma UnderEveryTangent(x: real, m: real, a: real, b: real)
    requires 0.0 < a < b && a <= m <= b && 0.0 <= x
    ensures UnitValue(x, a, b) <= Tangent(m, x, a, b)
  {
    hide Recip;
    var v := x * x;
    var i, j, k := Recip(a), Recip(m), Recip(b);
    assert v * (i - k) == v * (i - j) + v * (j - k);
    assert v * (j - k) == v * j - v * k;
    if x <= a {
      SquareOrder(x, a);
      Scale(a, a, m);
      AtMost(v, a, m);
    } else if x >= b {
      SquareOrder(b, x);
      Scale(b, m, b);
      AtLeast(v, m, b);
    } else {
      ArithmeticGeometric(x, m);
    }
  }

  /** V touches the tangent at the clamped price: it is the lower envelope of its tangents. */
  lemma TouchesTangent(x: real, a: real, b: real)
    requires 0.0 < a < b && 0.0 <= x
    ensures UnitValue(x, a, b) == Tangent(Clamp(x, a, b), x, a, b)
  {
    hide Recip;
    if a < x < b {
      var v := x * x;
      Undo(x, x);
      assert v * (Recip(x) - Recip(b)) == v * Recip(x) - v * Recip(b);
      assert v * Recip(x) == x * Recip(x) * x;
    }
  }

  // -------------------------------------------------------------------------
  // V in the price
  // -------------------------------------------------------------------------

  lemma TangentMoves(m: real, x: real, y: real, a: real, b: real)
    requires 0.0 < a <= m <= b
    ensures Tangent(m, y, a, b) - Tangent(m, x, a, b) == (Recip(m) - Recip(b)) * (y * y - x * x)
  {
    hide Recip;
  }

  lemma TangentRises(m: real, x: real, y: real, a: real, b: real)
    requires 0.0 < a <= m <= b && 0.0 <= x <= y
    ensures 0.0 <= Tangent(m, y, a, b) - Tangent(m, x, a, b) <= (y * y - x * x) * (Recip(a) - Recip(b))
    ensures x < y && m < b ==> Tangent(m, x, a, b) < Tangent(m, y, a, b)
  {
    hide Recip, Tangent;
    TangentMoves(m, x, y, a, b);
    var g, k, h := y * y - x * x, Recip(m) - Recip(b), Recip(a) - Recip(b);
    assert 0.0 <= g by { SquareOrder(x, y); }
    RecipOrder(a, m);
    RecipOrder(m, b);
    Between(k, h, g);
    if x < y && m < b {
      assert 0.0 < g by { SquareStrict(x, y); }
      ScaleStrict(k, 0.0, g);
    }
  }

  lemma Between(k: real, h: real, g: real)
    requires 0.0 <= k <= h && 0.0 <= g
    ensures 0.0 <= k * g <= g * h
  {
    Scale(g, 0.0, k);
    Scale(g, k, h);
  }

  lemma TangentMixes(m: real, x: real, y: real, z: real, t: real, a: real, b: real)
    requires 0.0 < a <= m <= b
    requires z * z == t * (x * x) + (1.0 - t) * (y * y)
    ensures Tangent(m, z, a, b) == t * Tangent(m, x, a, b) + (1.0 - t) * Tangent(m, y, a, b)
  {
    hide Recip;
    var k := Recip(m) - Recip(b);
    assert z * z * k == t * (x * x * k) + (1.0 - t) * (y * y * k);
  }

  /** V is concave in the price over the whole half-line: at a mixture z*z of two prices it is at least the mixture. */
  lemma Concave(x: real, y: real, z: real, t: real, liquidity: real, a: real, b: real)
    requires 0.0 <= x && 0.0 <= y && 0.0 <= z && 0.0 <= t <= 1.0 && liquidity >= 0.0
    requires z * z == t * (x * x) + (1.0 - t) * (y * y)
    ensures ClPositionValue(z, liquidity, a, b)
            >= t * ClPositionValue(x, liquidity, a, b) + (1.0 - t) * ClPositionValue(y, liquidity, a, b)
  {
    hide UnitValue, Tangent;
    if 0.0 < a < b && liquidity > 0.0 {
      var m := Clamp(z, a, b);
      TouchesTangent(z, a, b);
      UnderEveryTangent(x, m, a, b);
      UnderEveryTangent(y, m, a, b);
      TangentMixes(m, x, y, z, t, a, b);
      var u, v := UnitValue(x, a, b), UnitValue(y, a, b);
      Mixture(t, 1.0 - t, u, v, Tangent(m, x, a, b), Tangent(m, y, a, b));
      Scale(liquidity, t * u + (1.0 - t) * v, UnitValue(z, a, b));
      assert liquidity * (t * u + (1.0 - t) * v) == t * (liquidity * u) + (1.0 - t) * (liquidity * v);
    }
  }

  /** Unit value rises with the price, never faster than the slope under the range. */
  lemma UnitRises(x: real, y: real, a: real, b: real)
    requires 0.0 < a < b && 0.0 <= x <= y
    ensures 0.0 <= UnitValue(y, a, b) - UnitValue(x, a, b) <= (y * y - x * x) * (Recip(a) - Recip(b))
  {
    hide Recip, UnitValue, Tangent;
    var m, n := Clamp(x, a, b), Clamp(y, a, b);
    TouchesTangent(x, a, b);
    TouchesTangent(y, a, b);
    UnderEveryTangent(y, m, a, b);
    UnderEveryTangent(x, n, a, b);
    TangentRises(m, x, y, a, b);
    TangentRises(n, x, y, a, b);
  }

  /** Below the upper end it rises strictly. */
  lemma UnitRisesStrictly(x: real, y: real, a: real, b: real)
    requires 0.0 < a < b && 0.0 <= x < y <= b
    ensures UnitValue(x, a, b) < UnitValue(y, a, b)
  {
    hide Recip, UnitValue, Tangent;
    var w := (x + y) / 2.0;
    TouchesTangent(w, a, b);
    UnderEveryTangent(x, Clamp(w, a, b), a, b);
    TangentRises(Clamp(w, a, b), x, w, a, b);
    UnitRises(w, y, a, b);
  }

  /** V never falls as the price rises, and moves continuously: by at most a fixed slope times the price move. */
  lemma RisesContinuously(x: real, y: real, liquidity: real, a: real, b: real)
    requires 0.0 <= x <= y && liquidity >= 0.0
    ensures ClPositionValue(x, liquidity, a, b) <= ClPositionValue(y, liquidity, a, b)
    ensures 0.0 < a < b ==>
              ClPositionValue(y, liquidity, a, b) - ClPositionValue(x, liquidity, a, b)
              <= liquidity * (Recip(a) - Recip(b)) * (y * y - x * x)
  {
    hide Recip, UnitValue;
    if 0.0 < a < b {
      UnitRises(x, y, a, b);
      var u, v, k := UnitValue(x, a, b), UnitValue(y, a, b), Recip(a) - Recip(b);
      Scale(liquidity, u, v);
      Scale(liquidity, v - u, (y * y - x * x) * k);
      assert liquidity * (v - u) == liquidity * v - liquidity * u;
      assert liquidity * ((y * y - x * x) * k) == liquidity * k * (y * y - x * x);
    }
  }

  // -------------------------------------------------------------------------
  // The payoff
  // -------------------------------------------------------------------------

  /** Whatever the entry price, the swap pays at most the downside cap and costs at most the upside cap. */
  lemma PayoffBetweenCaps(sT: real, s0: real, liquidity: real, a: real, b: real)
    requires 0.0 <= sT && 0.0 <= a <= b && liquidity >= 0.0
    ensures -NaturalCapUp(s0, liquidity, a, b) <= LhPayoff(sT, s0, liquidity, a, b) <= NaturalCap(s0, liquidity, a, b)
  {
    hide ClPositionValue;
    var c := Clamp(sT, a, b);
    RisesContinuously(a, c, liquidity, a, b);
    RisesContinuously(c, b, liquidity, a, b);
  }

  /** From an entry inside the range it reaches both. */
  lemma PayoffReachesCaps(sT: real, s0: real, liquidity: real, a: real, b: real)
    requires 0.0 <= sT && 0.0 <= a <= s0 <= b && liquidity >= 0.0
    ensures sT <= a ==> LhPayoff(sT, s0, liquidity, a, b) == NaturalCap(s0, liquidity, a, b)
    ensures sT >= b ==> LhPayoff(sT, s0, liquidity, a, b) == -NaturalCapUp(s0, liquidity, a, b)
  {
    hide ClPositionValue;
    RisesContinuously(a, s0, liquidity, a, b);
    RisesContinuously(s0, b, liquidity, a, b);
  }

  /** The swap never pays more at a higher price. */
  lemma PayoffFalls(sT: real, tT: real, s0: real, liquidity: real, a: real, b: real)
    requires 0.0 <= sT <= tT && 0.0 <= a && liquidity >= 0.0
    ensures LhPayoff(tT, s0, liquidity, a, b) <= LhPayoff(sT, s0, liquidity, a, b)
  {
    hide ClPositionValue;
    if a <= b {
      RisesContinuously(Clamp(sT, a, b), Clamp(tT, a, b), liquidity, a, b);
    }
  }

  /** For an entry in the range and under its upper end, the payoff is not negative exactly at or below entry. */
  lemma PayoffSign(sT: real, s0: real, liquidity: real, a: real, b: real)
    requires 0.0 <= sT && 0.0 < a <= s0 < b && liquidity > 0.0
    ensures LhPayoff(sT, s0, liquidity, a, b) >= 0.0 <==> sT <= s0
  {
    hide UnitValue;
    var c := Clamp(sT, a, b);
    if sT <= s0 {
      UnitRises(c, s0, a, b);
      Scale(liquidity, UnitValue(c, a, b), UnitValue(s0, a, b));
    } else {
      UnitRisesStrictly(s0, c, a, b);
      ScaleStrict(liquidity, UnitValue(s0, a, b), UnitValue(c, a, b));
    }
  }

  ghost predicate SignRule(s0: real, liquidity: real, a: real, b: real) {
    forall sT :: sT >= 0.0 ==> (LhPayoff(sT, s0, liquidity, a, b) >= 0.0 <==> sT <= s0)
  }

  /** The documented sign rule holds for every settlement price if and only if entry is in [a, b). */
  lemma PayoffSignExactly(s0: real, liquidity: real, a: real, b: real)
    requires 0.0 <= s0 && 0.0 < a < b && liquidity > 0.0
    ensures SignRule(s0, liquidity, a, b) <==> a <= s0 < b
  {
    hide UnitValue, LhPayoff;
    if a <= s0 < b {
      forall sT | sT >= 0.0 ensures LhPayoff(sT, s0, liquidity, a, b) >= 0.0 <==> sT <= s0 {
        PayoffSign(sT, s0, liquidity, a, b);
      }
    } else if s0 < a {
      PaysBelowRange(s0, liquidity, a, b);
      assert !(LhPayoff(s0, s0, liquidity, a, b) >= 0.0 <==> s0 <= s0);
    } else {
      PaysAboveRange(s0, liquidity, a, b);
      assert !(LhPayoff(s0 + 1.0, s0, liquidity, a, b) >= 0.0 <==> s0 + 1.0 <= s0);
    }
  }

  /** An entry below the range makes the pool gain even at the entry price. */
  lemma PaysBelowRange(s0: real, liquidity: real, a: real, b: real)
    requires 0.0 <= s0 < a < b && liquidity > 0.0
    ensures LhPayoff(s0, s0, liquidity, a, b) < 0.0
  {
    hide UnitValue;
    UnitRisesStrictly(s0, a, a, b);
    ScaleStrict(liquidity, UnitValue(s0, a, b), UnitValue(a, a, b));
  }

  /** An entry at or above it never costs the buyer anything. */
  lemma PaysAboveRange(s0: real, liquidity: real, a: real, b: real)
    requires 0.0 < a < b <= s0 && liquidity > 0.0
    ensures LhPayoff(s0 + 1.0, s0, liquidity, a, b) == 0.0
  {
  }

  lemma UnitCaps(s0: real, a: real, b: real)
    requires 0.0 < a < s0 < b
    ensures UnitValue(b, a, b) - UnitValue(s0, a, b) == (b - s0) * (b - s0) * Recip(b)
    ensures UnitValue(s0, a, b) - UnitValue(a, a, b) == (s0 - a) * (2.0 * b - s0 - a) * Recip(b)
  {
    hide Recip;
    TouchesTangent(a, a, b);
    var k := Recip(b);
    Undo(a, a);
    Undo(b, b);
    assert a * a * (Recip(a) - k) == a * Recip(a) * a - a * a * k;
    assert b * k == 1.0;
    assert (b - s0) * (b - s0) * k == b * (b * k) - 2.0 * s0 * (b * k) + s0 * s0 * k;
    assert (s0 - a) * (2.0 * b - s0 - a) * k == 2.0 * (s0 - a) * (b * k) - s0 * s0 * k + a * a * k;
  }

  /** For a range as wide above entry as below it (in price), the buyer gives up less than it is protected for. */
  lemma UpsideBelowDownside(s0: real, liquidity: real, a: real, b: real)
    requires 0.0 < a < s0 < b && liquidity > 0.0
    requires s0 * s0 - a * a == b * b - s0 * s0
    ensures NaturalCapUp(s0, liquidity, a, b) < NaturalCap(s0, liquidity, a, b)
  {
    hide UnitValue;
    UnitCapsApart(s0, a, b);
    Spread(liquidity, UnitValue(a, a, b), UnitValue(s0, a, b), UnitValue(b, a, b));
  }

  lemma Spread(liquidity: real, u: real, v: real, w: real)
    requires 0.0 < liquidity && 0.0 <= w - v < v - u
    ensures 0.0 <= liquidity * w - liquidity * v < liquidity * v - liquidity * u
  {
    Scale(liquidity, 0.0, w - v);
    ScaleStrict(liquidity, w - v, v - u);
  }

  lemma UnitCapsApart(s0: real, a: real, b: real)
    requires 0.0 < a < s0 < b
    requires s0 * s0 - a * a == b * b - s0 * s0
    ensures 0.0 <= UnitValue(b, a, b) - UnitValue(s0, a, b) < UnitValue(s0, a, b) - UnitValue(a, a, b)
  {
    hide Recip, UnitValue;
    UnitCaps(s0, a, b);
    NarrowerAbove(s0, a, b);
    Products(b - s0, s0 - a, 2.0 * b - s0 - a, Recip(b));
  }

  lemma Products(u: real, v: real, w: real, k: real)
    requires 0.0 < u < v && u < w && 0.0 < k
    ensures 0.0 <= u * u * k < v * w * k
  {
    ScaleStrict(u, u, v);
    ScaleStrict(v, u, w);
    Scale(u, 0.0, u);
    ScaleStrict(k, u * u, v * w);
    Scale(k, 0.0, u * u);
  }

  lemma NarrowerAbove(s0: real, a: real, b: real)
    requires 0.0 < a < s0 < b
    requires s0 * s0 - a * a == b * b - s0 * s0
    ensures b - s0 < s0 - a
  {
    assert (s0 - a) * (s0 + a) == (b - s0) * (b + s0);
    ScaleStrict(b - s0, s0 + a, b + s0);
    assert (b - s0) * (s0 + a) < (s0 - a) * (s0 + a);
    CancelStrict(b - s0, s0 - a, s0 + a);
  }
}
