/** Floor division of integers, stated by the inequalities that define it. */
module IntegerDivision {

  lemma Times(x: int, y: int, u: int)
    requires x <= y && 0 <= u
    ensures x * u <= y * u
  {
  }

  lemma Floor(x: int, d: int)
    requires 0 < d
    ensures x / d * d <= x < (x / d + 1) * d
  {
  }

  lemma Cancel(x: int, y: int, d: int)
    requires 0 < d && x * d <= y * d
    ensures x <= y
  {
    if x > y { Times(y + 1, x, d); assert false; }
  }

  /** q is at most floor(x/d) exactly when q*d is at most x. */
  lemma AtMostFloor(q: int, x: int, d: int)
    requires 0 < d
    ensures q <= x / d <==> q * d <= x
  {
    Floor(x, d);
    if q <= x / d { Times(q, x / d, d); } else { Times(x / d + 1, q, d); }
  }

  /** Two floor divisions in a row divide once by the product. */
  lemma Nested(x: int, c: int, d: int)
    requires 0 < c && 0 < d
    ensures 0 < c * d && x / c / d == x / (c * d)
  {
    Positive(c, d);
    var p, q := x / c / d, x / (c * d);
    AtMostFloor(p, x / c, d);
    AtMostFloor(p * d, x, c);
    assert p * d * c == p * (c * d);
    AtMostFloor(p, x, c * d);
    AtMostFloor(q, x, c * d);
    assert q * (c * d) == q * d * c;
    AtMostFloor(q * d, x, c);
    AtMostFloor(q, x / c, d);
  }

  lemma Positive(c: int, d: int)
    requires 0 < c && 0 < d
    ensures 0 < c * d
  {
  }

  lemma NonNegative(x: int, d: int)
    requires 0 <= x && 0 < d
    ensures 0 <= x / d
  {
    AtMostFloor(0, x, d);
  }

  /** A fraction no larger has a floor no larger. */
  lemma Ordered(x: int, d: int, y: int, e: int)
    requires 0 < d && 0 < e && x * e <= y * d
    ensures x / d <= y / e
  {
    var q := x / d;
    Floor(x, d);
    Times(q * d, x, e);
    assert q * e * d == q * d * e;
    Cancel(q * e, y, d);
    AtMostFloor(q, y, e);
  }
}
