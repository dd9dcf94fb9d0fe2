/**
 * Fee-growth accounting modulo 2^128: the reconstruction of feeGrowthInside that the readers run, and
 * the pool it is read from (Uniswap v3 Core whitepaper, sections 6.3 and 6.4).
 */
module FeeGrowth {
  import opened FixedPoint

  const U128: int := 0x1_0000_0000_0000_0000_0000_0000_0000_0000

  type Counter = x: int | 0 <= x < 0x1_0000_0000_0000_0000_0000_0000_0000_0000

  // ---- The code's arithmetic ----

  /** The BigInt remainder: it takes the sign of the dividend. */
  function Rem(x: int, m: int): int
    requires m > 0
  {
    if x >= 0 then x % m else -((-x) % m)
  }

  /** wrapSub, wrapDelta and feeGrowthDelta: one body under three names in the code. */
  function WrapSub(later: Counter, earlier: Counter): (d: Counter)
    ensures d == if later >= earlier then later - earlier else later - earlier + U128
  {
    Rem(later - earlier + U128, U128)
  }

  function Below(global: Counter, outsideLower: Counter, tick: int, tickLower: int): Counter {
    if tick < tickLower then WrapSub(global, outsideLower) else outsideLower
  }

  function Above(global: Counter, outsideUpper: Counter, tick: int, tickUpper: int): Counter {
    if tick >= tickUpper then WrapSub(global, outsideUpper) else outsideUpper
  }

  /** The value before the last remainder in feeGrowthInside of fee-refresher.ts. */
  function PreModulo(global: Counter, outsideLower: Counter, outsideUpper: Counter,
                     tick: int, tickLower: int, tickUpper: int): int
  {
    global - Below(global, outsideLower, tick, tickLower) - Above(global, outsideUpper, tick, tickUpper) + U128 * 2
  }

  function FeeGrowthInside(global: Counter, outsideLower: Counter, outsideUpper: Counter,
                           tick: int, tickLower: int, tickUpper: int): int
  {
    Rem(PreModulo(global, outsideLower, outsideUpper, tick, tickLower, tickUpper), U128)
  }

  /** feeGrowthInside of fees-owed.ts, which the snapshot readers use. */
  function FeeGrowthInsideOwed(global: Counter, outsideLower: Counter, outsideUpper: Counter,
                               tick: int, tickLower: int, tickUpper: int): Counter
  {
    WrapSub(WrapSub(global, Below(global, outsideLower, tick, tickLower)),
            Above(global, outsideUpper, tick, tickUpper))
  }

  function PendingFees(liquidity: nat, feeOwed: nat, inside: Counter, checkpoint: Counter): nat {
    feeOwed + WrapSub(inside, checkpoint) * liquidity / Q64
  }

  // ---- The documented formula ----

  function Wrap(x: int): Counter { x % U128 }

  /** The three cases of the documentation, in integers that may be negative. */
  function DocumentedInside(global: int, outsideLower: int, outsideUpper: int,
                            tick: int, tickLower: int, tickUpper: int): int
  {
    if tick < tickLower then outsideLower - outsideUpper
    else if tick >= tickUpper then outsideUpper - outsideLower
    else global - outsideLower - outsideUpper
  }

  lemma WrapShift(x: int, k: int)
    ensures Wrap(x + k * U128) == Wrap(x)
  {
    var q, r := x / U128, x % U128;
    assert x + k * U128 == (q + k) * U128 + r;
    WrapUnique(x + k * U128, q + k, r);
  }

  lemma WrapUnique(x: int, q: int, r: int)
    requires x == q * U128 + r && 0 <= r < U128
    ensures Wrap(x) == r
  {
    var q', r' := x / U128, x % U128;
    assert (q - q') * U128 == r' - r;
    assert q - q' >= 1 ==> (q - q') * U128 >= U128;
    assert q - q' <= -1 ==> (q - q') * U128 <= -U128;
  }

  lemma WrapOf(x: int, k: int)
    requires 0 <= x + k * U128 < U128
    ensures Wrap(x) == x + k * U128
  {
    WrapUnique(x, -k, x + k * U128);
  }

  /**
   * For a proper range and any counters, the below/above form of the code is the documented formula
   * modulo 2^128, and both readings agree; the value before the remainder is positive, so the sign
   * of the BigInt remainder never matters.
   */
  lemma ThreeCases(global: Counter, outsideLower: Counter, outsideUpper: Counter,
                   tick: int, tickLower: int, tickUpper: int)
    requires tickLower < tickUpper
    ensures PreModulo(global, outsideLower, outsideUpper, tick, tickLower, tickUpper) > 0
    ensures FeeGrowthInside(global, outsideLower, outsideUpper, tick, tickLower, tickUpper)
            == FeeGrowthInsideOwed(global, outsideLower, outsideUpper, tick, tickLower, tickUpper)
            == Wrap(DocumentedInside(global, outsideLower, outsideUpper, tick, tickLower, tickUpper))
  {
    var d := DocumentedInside(global, outsideLower, outsideUpper, tick, tickLower, tickUpper);
    var b, a := Below(global, outsideLower, tick, tickLower), Above(global, outsideUpper, tick, tickUpper);
    var pre := PreModulo(global, outsideLower, outsideUpper, tick, tickLower, tickUpper);
    SameResidue(global - b - a, d, global, outsideLower, outsideUpper, tick, tickLower, tickUpper);
    WrapShift(global - b - a, 2);
    var x := WrapSub(global, b);
    var owed := WrapSub(x, a);
    if x >= a {
      if global >= b { WrapOf(global - b - a, 0); } else { WrapOf(global - b - a, 1); }
    } else {
      if global >= b { WrapOf(global - b - a, 1); } else { WrapOf(global - b - a, 2); }
    }
  }

  /** Below and above cancel down to the documented terms, up to whole turns of the counter. */
  lemma SameResidue(x: int, d: int, global: Counter, outsideLower: Counter, outsideUpper: Counter,
                    tick: int, tickLower: int, tickUpper: int)
    requires tickLower < tickUpper
    requires x == global - Below(global, outsideLower, tick, tickLower) - Above(global, outsideUpper, tick, tickUpper)
    requires d == DocumentedInside(global, outsideLower, outsideUpper, tick, tickLower, tickUpper)
    ensures Wrap(x) == Wrap(d)
  {
    if tick < tickLower {
      WrapShift(d, if global >= outsideLower then 0 else -1);
    } else if tick >= tickUpper {
      WrapShift(d, if global >= outsideUpper then 0 else -1);
    }
  }

  // ---- The pool ----

  /** One token's counters: global growth, and growth outside each boundary of one position. */
  datatype Growth = Growth(global: Counter, lower: Counter, upper: Counter)

  datatype Range = Range(lower: int, upper: int) {
    ghost predicate Proper() { lower < upper }
    predicate Holds(tick: int) { lower <= tick < upper }
  }

  datatype Pool = Pool(tick: int, a: Growth, b: Growth)

  /** Fees accrue at the current tick; the price moves, crossing whichever boundaries lie between. */
  datatype Step = Accrue(da: nat, db: nat) | Move(tick: int)

  function Flip(g: Growth, lower: bool, upper: bool): Growth {
    Growth(g.global, if lower then WrapSub(g.global, g.lower) else g.lower,
           if upper then WrapSub(g.global, g.upper) else g.upper)
  }

  predicate Crosses(boundary: int, from: int, to: int) {
    (from < boundary) != (to < boundary)
  }

  function Grow(g: Growth, d: nat): Growth { g.(global := Wrap(g.global + d)) }

  function Apply(r: Range, p: Pool, st: Step): Pool {
    match st
    case Accrue(da, db) => Pool(p.tick, Grow(p.a, da), Grow(p.b, db))
    case Move(to) =>
      var l, u := Crosses(r.lower, p.tick, to), Crosses(r.upper, p.tick, to);
      Pool(to, Flip(p.a, l, u), Flip(p.b, l, u))
  }

  function Run(r: Range, p: Pool, steps: seq<Step>): Pool {
    if steps == [] then p else Apply(r, Run(r, p, steps[..|steps| - 1]), steps[|steps| - 1])
  }

  function Inside(r: Range, g: Growth, tick: int): Counter {
    FeeGrowthInsideOwed(g.global, g.lower, g.upper, tick, r.lower, r.upper)
  }

  /** Growth of token A (or B) that happened while the price was in range. */
  function EarnedA(r: Range, p: Pool, steps: seq<Step>): nat {
    if steps == [] then 0
    else
      var before := steps[..|steps| - 1];
      EarnedA(r, p, before) + (match steps[|steps| - 1]
                               case Accrue(da, _) => if r.Holds(Run(r, p, before).tick) then da else 0
                               case Move(_) => 0)
  }

  function EarnedB(r: Range, p: Pool, steps: seq<Step>): nat {
    if steps == [] then 0
    else
      var before := steps[..|steps| - 1];
      EarnedB(r, p, before) + (match steps[|steps| - 1]
                               case Accrue(_, db) => if r.Holds(Run(r, p, before).tick) then db else 0
                               case Move(_) => 0)
  }

  // ---- The accumulator is exact ----

  lemma WrapAbsorbs(x: int, y: int)
    ensures Wrap(Wrap(x) + y) == Wrap(x + y)
  {
    var q := x / U128;
    assert x == q * U128 + Wrap(x);
    WrapShift(Wrap(x) + y, q);
  }

  lemma WrapKeeps(x: Counter)
    ensures Wrap(x) == x
  {
  }

  /** Accrual moves the inside value by the accrual in range, and by nothing out of range. */
  lemma AccrueInside(r: Range, g: Growth, tick: int, d: nat)
    requires r.Proper()
    ensures Inside(r, Grow(g, d), tick) == Wrap(Inside(r, g, tick) + if r.Holds(tick) then d else 0)
  {
    var g' := Grow(g, d);
    ThreeCases(g.global, g.lower, g.upper, tick, r.lower, r.upper);
    ThreeCases(g'.global, g.lower, g.upper, tick, r.lower, r.upper);
    if r.Holds(tick) {
      WrapAbsorbs(g.global + d, 0 - (g.lower + g.upper));
      WrapAbsorbs(g.global - g.lower - g.upper, d);
    }
  }

  /** Crossing a boundary flips its outside value, and leaves the inside value alone. */
  lemma MoveInside(r: Range, g: Growth, from: int, to: int)
    requires r.Proper()
    ensures Inside(r, Flip(g, Crosses(r.lower, from, to), Crosses(r.upper, from, to)), to) == Inside(r, g, from)
  {
    var g' := Flip(g, Crosses(r.lower, from, to), Crosses(r.upper, from, to));
    assert Below(g'.global, g'.lower, to, r.lower) == Below(g.global, g.lower, from, r.lower);
    assert Above(g'.global, g'.upper, to, r.upper) == Above(g.global, g.upper, from, r.upper);
  }

  /**
   * Along any run of accruals and crossings, the inside value moves by exactly the growth that
   * happened while the price was in range, modulo 2^128.
   */
  lemma {:induction false} AccumulatorIsExact(r: Range, p: Pool, steps: seq<Step>)
    requires r.Proper()
    ensures var q := Run(r, p, steps);
      && Inside(r, q.a, q.tick) == Wrap(Inside(r, p.a, p.tick) + EarnedA(r, p, steps))
      && Inside(r, q.b, q.tick) == Wrap(Inside(r, p.b, p.tick) + EarnedB(r, p, steps))
  {
    hide Inside, Wrap, Grow, Flip, Crosses;
    WrapKeeps(Inside(r, p.a, p.tick));
    WrapKeeps(Inside(r, p.b, p.tick));
    if steps != [] {
      var before, st := steps[..|steps| - 1], steps[|steps| - 1];
      AccumulatorIsExact(r, p, before);
      var m := Run(r, p, before);
      match st
      case Accrue(da, db) =>
        AccrueInside(r, m.a, m.tick, da);
        AccrueInside(r, m.b, m.tick, db);
        WrapAbsorbs(Inside(r, p.a, p.tick) + EarnedA(r, p, before), if r.Holds(m.tick) then da else 0);
        WrapAbsorbs(Inside(r, p.b, p.tick) + EarnedB(r, p, before), if r.Holds(m.tick) then db else 0);
      case Move(to) =>
        MoveInside(r, m.a, m.tick, to);
        MoveInside(r, m.b, m.tick, to);
    }
  }

  /** So the wrapped difference of two readings is the growth in range, while that is below 2^128. */
  lemma DeltaIsEarned(r: Range, p: Pool, steps: seq<Step>)
    requires r.Proper() && EarnedA(r, p, steps) < U128 && EarnedB(r, p, steps) < U128
    ensures var q := Run(r, p, steps);
      && WrapSub(Inside(r, q.a, q.tick), Inside(r, p.a, p.tick)) == EarnedA(r, p, steps)
      && WrapSub(Inside(r, q.b, q.tick), Inside(r, p.b, p.tick)) == EarnedB(r, p, steps)
  {
    hide Inside, Wrap, WrapSub, Run, EarnedA, EarnedB;
    AccumulatorIsExact(r, p, steps);
    DeltaOf(Inside(r, p.a, p.tick), EarnedA(r, p, steps));
    DeltaOf(Inside(r, p.b, p.tick), EarnedB(r, p, steps));
  }

  lemma DeltaOf(x: Counter, d: Counter)
    ensures WrapSub(Wrap(x + d), x) == d
  {
    if x + d < U128 { WrapOf(x + d, 0); } else { WrapOf(x + d, -1); }
  }
}
