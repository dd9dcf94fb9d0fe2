/** Integer square root and the Q64.64 token-amount arithmetic of a concentrated-liquidity position. */
module LiquidityMath {
  import opened FixedPoint
  import opened IntegerDivision
  import opened Outcomes

  // -------------------------------------------------------------------------
  // Newton's square root
  // -------------------------------------------------------------------------

  ghost predicate IsRoot(r: int, n: int) {
    0 <= r && r * r <= n < (r + 1) * (r + 1)
  }

  /** There is only one integer square root. */
  lemma RootUnique(r: int, s: int, n: int)
    requires IsRoot(r, n) && IsRoot(s, n)
    ensures r == s
  {
    if r < s {
      Squared(r + 1, s);
      assert false;
    } else if s < r {
      Squared(s + 1, r);
      assert false;
    }
  }

  lemma Squared(x: int, y: int)
    requires 0 <= x <= y
    ensures x * x <= y * y
  {
    Times(x, y, x);
    Times(x, y, y);
  }

  /** One Newton step from any positive guess lands at or above the root. */
  lemma StepAbove(n: int, x: int)
    requires 0 < n && 0 < x
    ensures var y := (x + n / x) / 2; n < (y + 1) * (y + 1)
  {
    var q := n / x;
    Floor(n, x);
    NonNegative(n, x);
    var y, e := (x + q) / 2, q + 1;
    assert x + e <= 2 * (y + 1);
    Squared(x + e, 2 * (y + 1));
    Squares(x, e, y);
    assert n < e * x;
  }

  lemma Squares(x: int, e: int, y: int)
    ensures 4 * (e * x) <= (x + e) * (x + e)
    ensures 2 * (y + 1) * (2 * (y + 1)) == 4 * ((y + 1) * (y + 1))
  {
    var d := x - e;
    assert d * d >= 0;
    assert (x + e) * (x + e) == d * d + 4 * (e * x);
  }

  method IntegerSqrt(n: int) returns (r: int)
    ensures n <= 0 ==> r == 0
    ensures n > 0 ==> IsRoot(r, n)
  {
    if n <= 0 {
      return 0;
    }
    var x := n;
    var y := (x + 1) / 2;
    assert n / n == 1;
    Times(1, n, n);
    while y < x
      invariant 0 < x
      invariant y == (x + n / x) / 2
      invariant n < (x + 1) * (x + 1)
      decreases x
    {
      StepAbove(n, x);
      NonNegative(n, x);
      x := y;
      y := (x + n / x) / 2;
    }
    AtMostFloor(x, n, x);
    return x;
  }

  /** The greatest r with r*r*10^9 at most price*2^128, although the quotient is floored first. */
  method PriceE6ToSqrtPriceX64(priceE6: int) returns (r: int)
    ensures priceE6 <= 0 ==> r == 0
    ensures priceE6 >= 0 ==>
              && r * r * 1_000_000_000 <= priceE6 * (Q64 * Q64)
              && priceE6 * (Q64 * Q64) < (r + 1) * (r + 1) * 1_000_000_000
  {
    if priceE6 < 0 {
      return 0;
    }
    var x := priceE6 * Q64 * Q64;
    var numerator := x / 1_000_000_000;
    r := IntegerSqrt(numerator);
    Floor(x, 1_000_000_000);
  }

  // -------------------------------------------------------------------------
  // Liquidity and token amounts
  // -------------------------------------------------------------------------

  datatype Amounts = Amounts(a: int, b: int)

  /** Token amounts of a position; the roots of the current price and of the range ends are Q64.64. */
  function EstimateTokenAmounts(liquidity: nat, current: nat, lower: nat, upper: nat): Amounts
    requires 0 < lower < upper
  {
    if liquidity == 0 then Amounts(0, 0)
    else if current <= lower then Amounts(liquidity * (upper - lower) * Q64 / lower / upper, 0)
    else if current >= upper then Amounts(0, liquidity * (upper - lower) / Q64)
    else Amounts(liquidity * (upper - current) * Q64 / current / upper, liquidity * (current - lower) / Q64)
  }

  datatype Thrown = DivisionByZero

  /** Division of JavaScript bigints: toward zero. */
  function Quotient(x: nat, d: int): int
    requires d != 0
  {
    if d > 0 then x / d else -(x / -d)
  }

  /** The liquidity two token amounts can supply. Only the branch below the range checks for an empty one. */
  function EstimateLiquidity(a: nat, b: nat, current: nat, lower: nat, upper: nat): Result<int, Thrown> {
    if current <= lower then
      if upper <= lower then Ok(0) else Ok(a * lower * upper / Q64 / (upper - lower))
    else if current >= upper then
      if upper == lower then Err(DivisionByZero) else Ok(Quotient(b * Q64, upper - lower))
    else
      var liqA := a * current * upper / Q64 / (upper - current);
      var liqB := b * Q64 / (current - lower);
      Ok(if liqA < liqB then liqA else liqB)
  }

  /** The exact token need of a liquidity, without any rounding, fits the amounts. */
  ghost predicate Fits(liquidity: int, a: nat, b: nat, current: nat, lower: nat, upper: nat)
    requires 0 < lower < upper
  {
    var c := Clamped(current, lower, upper);
    && (c < upper ==> NeedA(liquidity, c, upper) <= a * c * upper)
    && (lower < c ==> liquidity * (c - lower) <= b * Q64)
  }

  function Clamped(current: nat, lower: nat, upper: nat): nat
    requires lower < upper
  {
    if current <= lower then lower else if current >= upper then upper else current
  }

  function NeedA(liquidity: int, c: nat, upper: nat): int {
    liquidity * (upper - c) * Q64
  }

  lemma LiquidityFromA(liquidity: int, a: nat, c: nat, upper: nat)
    requires 0 < c < upper
    ensures liquidity <= a * c * upper / Q64 / (upper - c) <==> NeedA(liquidity, c, upper) <= a * c * upper
  {
    Nested(a * c * upper, Q64, upper - c);
    AtMostFloor(liquidity, a * c * upper, Q64 * (upper - c));
    assert liquidity * (Q64 * (upper - c)) == NeedA(liquidity, c, upper);
  }

  /** The estimate is the largest liquidity whose exact token need fits the amounts. */
  lemma LargestThatFits(a: nat, b: nat, current: nat, lower: nat, upper: nat, liquidity: int)
    requires 0 < lower < upper
    ensures EstimateLiquidity(a, b, current, lower, upper).Ok?
    ensures liquidity <= EstimateLiquidity(a, b, current, lower, upper).value
            <==> Fits(liquidity, a, b, current, lower, upper)
  {
    hide NeedA;
    var c := Clamped(current, lower, upper);
    if c < upper {
      LiquidityFromA(liquidity, a, c, upper);
    }
    if lower < c {
      AtMostFloor(liquidity, b * Q64, c - lower);
    }
  }

  lemma AmountsAt(liquidity: nat, c: nat, lower: nat, upper: nat)
    requires 0 < lower < upper && lower <= c <= upper
    ensures EstimateTokenAmounts(liquidity, c, lower, upper).a == NeedA(liquidity, c, upper) / (c * upper)
    ensures EstimateTokenAmounts(liquidity, c, lower, upper).b == liquidity * (c - lower) / Q64
  {
    Nested(NeedA(liquidity, c, upper), c, upper);
  }

  /** The amounts are those at the price clamped into the range. */
  lemma AmountsClamp(liquidity: nat, current: nat, lower: nat, upper: nat)
    requires 0 < lower < upper
    ensures EstimateTokenAmounts(liquidity, current, lower, upper)
         == EstimateTokenAmounts(liquidity, Clamped(current, lower, upper), lower, upper)
  {
  }

  /** As the price rises token A is given up and token B gained. */
  lemma AmountsMove(liquidity: nat, current: nat, later: nat, lower: nat, upper: nat)
    requires 0 < lower < upper && current <= later
    ensures EstimateTokenAmounts(liquidity, later, lower, upper).a <= EstimateTokenAmounts(liquidity, current, lower, upper).a
    ensures EstimateTokenAmounts(liquidity, current, lower, upper).b <= EstimateTokenAmounts(liquidity, later, lower, upper).b
  {
    hide EstimateTokenAmounts, NeedA;
    var c, d := Clamped(current, lower, upper), Clamped(later, lower, upper);
    AmountsClamp(liquidity, current, lower, upper);
    AmountsClamp(liquidity, later, lower, upper);
    AmountsAt(liquidity, c, lower, upper);
    AmountsAt(liquidity, d, lower, upper);
    NeedFalls(liquidity, c, d, upper);
    Positive(c, upper);
    Positive(d, upper);
    Ordered(NeedA(liquidity, d, upper), d * upper, NeedA(liquidity, c, upper), c * upper);
    Times(c - lower, d - lower, liquidity);
    AtMostFloor(liquidity * (c - lower) / Q64, liquidity * (d - lower), Q64);
    Floor(liquidity * (c - lower), Q64);
  }

  lemma NeedFalls(liquidity: nat, c: nat, d: nat, upper: nat)
    requires 0 < c <= d <= upper
    ensures NeedA(liquidity, d, upper) * (c * upper) <= NeedA(liquidity, c, upper) * (d * upper)
  {
    var k := liquidity * Q64;
    Times(upper - d, upper - c, c);
    Times(c, d, upper - c);
    Times((upper - d) * c, (upper - c) * d, k * upper);
    Regroup(liquidity, upper - d, c, upper);
    Regroup(liquidity, upper - c, d, upper);
  }

  lemma Regroup(liquidity: nat, w: int, c: nat, upper: nat)
    ensures w * c * (liquidity * Q64 * upper) == liquidity * w * Q64 * (c * upper)
  {
    var k := liquidity * Q64;
    assert w * c * (k * upper) == w * k * (c * upper);
    assert w * k == liquidity * w * Q64;
  }

  /** Turning amounts into liquidity and back never yields more of either token. */
  lemma RoundTrip(a: nat, b: nat, current: nat, lower: nat, upper: nat)
    requires 0 < lower < upper
    ensures var r := EstimateLiquidity(a, b, current, lower, upper);
            && r.Ok? && r.value >= 0
            && var back := EstimateTokenAmounts(r.value, current, lower, upper);
               back.a <= a && back.b <= b
  {
    hide EstimateTokenAmounts, EstimateLiquidity, NeedA;
    LargestThatFits(a, b, current, lower, upper, 0);
    assert Fits(0, a, b, current, lower, upper) by { NothingFits(a, b, current, lower, upper); }
    var liquidity := EstimateLiquidity(a, b, current, lower, upper).value;
    LargestThatFits(a, b, current, lower, upper, liquidity);
    var c := Clamped(current, lower, upper);
    AmountsClamp(liquidity, current, lower, upper);
    AmountsAt(liquidity, c, lower, upper);
    BackA(liquidity, a, c, upper);
    BackB(liquidity, b, c, lower);
  }

  lemma NothingFits(a: nat, b: nat, current: nat, lower: nat, upper: nat)
    requires 0 < lower < upper
    ensures Fits(0, a, b, current, lower, upper)
  {
    var c := Clamped(current, lower, upper);
    Times(0, a * c, upper);
    Times(0, a, c);
  }

  lemma BackA(liquidity: int, a: nat, c: nat, upper: nat)
    requires 0 < c <= upper && (c < upper ==> NeedA(liquidity, c, upper) <= a * c * upper)
    ensures 0 < c * upper && NeedA(liquidity, c, upper) / (c * upper) <= a
  {
    Positive(c, upper);
    var x, d := NeedA(liquidity, c, upper), c * upper;
    Times(0, a, d);
    assert a * c * upper == a * d;
    Floor(x, d);
    Cancel(x / d, a, d);
  }

  lemma BackB(liquidity: int, b: nat, c: nat, lower: nat)
    requires lower <= c && (lower < c ==> liquidity * (c - lower) <= b * Q64)
    ensures liquidity * (c - lower) / Q64 <= b
  {
  }

  /** Above an empty range the estimate divides by zero, and below it answers zero. */
  lemma EmptyRange(a: nat, b: nat, current: nat, bound: nat)
    ensures EstimateLiquidity(a, b, current, bound, bound) == if current > bound then Err(DivisionByZero) else Ok(0)
  {
  }
}
