/** Facts about products of reals, each small enough for the solver. */
module Reals {

  lemma Cancel(x: real, y: real, p: real)
    requires p > 0.0 && x * p <= y * p
    ensures x <= y
  {
    var d := y - x;
    assert d * p >= 0.0;
  }

  lemma CancelStrict(x: real, y: real, p: real)
    requires p > 0.0 && x * p < y * p
    ensures x < y
  {
    var d := y - x;
    assert d * p > 0.0;
  }

  lemma Scale(p: real, x: real, y: real)
    requires p >= 0.0 && x <= y
    ensures p * x <= p * y
  {
    assert p * (y - x) >= 0.0;
  }

  lemma SquareOrder(x: real, y: real)
    requires 0.0 <= x <= y
    ensures x * x <= x * y <= y * y
  {
    assert x * (y - x) >= 0.0;
    assert y * (y - x) >= 0.0;
  }

  /** The reciprocal, known by the equation that defines it. */
  function Recip(m: real): (r: real)
    requires m > 0.0
    ensures r * m == 1.0 && r > 0.0
  {
    1.0 / m
  }

  lemma TimesOne(v: real, u: real)
    requires u == 1.0
    ensures v * u == v
  {
  }

  /** v * (1/m) * m is v again. */
  lemma Undo(v: real, m: real)
    requires m > 0.0
    ensures v * Recip(m) * m == v
  {
    hide Recip;
    assert v * Recip(m) * m == v * (Recip(m) * m);
    TimesOne(v, Recip(m) * m);
  }

  lemma RecipDifference(m: real, n: real)
    requires 0.0 < m && 0.0 < n
    ensures (Recip(m) - Recip(n)) * (m * n) == n - m
  {
    hide Recip;
    var i, j := Recip(m), Recip(n);
    TimesOne(n, i * m);
    TimesOne(m, j * n);
    assert (i - j) * (m * n) == n * (i * m) - m * (j * n);
  }

  lemma RecipOrder(m: real, n: real)
    requires 0.0 < m <= n
    ensures Recip(n) <= Recip(m)
    ensures m < n ==> Recip(n) < Recip(m)
  {
    hide Recip;
    RecipDifference(m, n);
    var d := Recip(m) - Recip(n);
    Cancel(0.0, d, m * n);
    if m < n {
      CancelStrict(0.0, d, m * n);
    }
  }

  /** v(1/m - 1/n), cleared of its fractions. */
  lemma Cleared(v: real, m: real, n: real)
    requires 0.0 < m && 0.0 < n
    ensures v * (Recip(m) - Recip(n)) * (m * n) == v * (n - m)
  {
    hide Recip;
    RecipDifference(m, n);
    var d := Recip(m) - Recip(n);
    assert v * d * (m * n) == v * (d * (m * n));
  }

  lemma AtMost(v: real, m: real, n: real)
    requires 0.0 < m <= n && v <= m * n
    ensures v * (Recip(m) - Recip(n)) <= n - m
  {
    hide Recip;
    Cleared(v, m, n);
    Scale(n - m, v, m * n);
    Cancel(v * (Recip(m) - Recip(n)), n - m, m * n);
  }

  lemma AtLeast(v: real, m: real, n: real)
    requires 0.0 < m <= n && v >= m * n
    ensures v * (Recip(m) - Recip(n)) >= n - m
  {
    hide Recip;
    Cleared(v, m, n);
    Scale(n - m, m * n, v);
    Cancel(n - m, v * (Recip(m) - Recip(n)), m * n);
  }

  lemma Doubled(x: real, m: real, w: real)
    requires w * m == x * x
    ensures 2.0 * x * m <= (m + w) * m
  {
    var d := m - x;
    assert d * d >= 0.0;
    assert (m + w) * m - 2.0 * x * m == d * d;
  }

  /** 2x is at most m + x*x/m. */
  lemma ArithmeticGeometric(x: real, m: real)
    requires 0.0 < m
    ensures 2.0 * x <= m + x * x * Recip(m)
  {
    hide Recip;
    var w := x * x * Recip(m);
    Undo(x * x, m);
    Doubled(x, m, w);
    Cancel(2.0 * x, m + w, m);
  }

  lemma ScaleStrict(p: real, x: real, y: real)
    requires p > 0.0 && x < y
    ensures p * x < p * y
  {
    assert p * (y - x) > 0.0;
  }

  lemma Mixture(p: real, q: real, u: real, v: real, u': real, v': real)
    requires 0.0 <= p && 0.0 <= q && u <= u' && v <= v'
    ensures p * u + q * v <= p * u' + q * v'
  {
    Scale(p, u, u');
    Scale(q, v, v');
  }

  lemma SquareStrict(x: real, y: real)
    requires 0.0 <= x < y
    ensures x * x < y * y
  {
    var d, e := y - x, y + x;
    assert d * e > 0.0;
    assert d * e == y * y - x * x;
  }
}
