/**
 * Two fee measurements from snapshots: measurePositionFees on the position's own accumulator, and
 * computeRangeFeeYield on the pool's global one.
 */
module FeeMeasure {
  import opened Outcomes
  import opened FeeGrowth
  import opened FixedPoint
  import opened Sums
  import opened TornRead

  datatype FeeSnap = FeeSnap(t: int, liquidity: nat, insideA: Counter, insideB: Counter, inRange: bool)
  datatype PoolSnap = PoolSnap(t: int, price: real, liquidity: nat, globalA: Counter, globalB: Counter)

  // ---- measurePositionFees ----

  /** plausible is the ceiling test on the quote value of an interval; halves counts half seconds. */
  datatype Measured = Measured(feesA: nat, feesB: nat, covered: int, intervals: nat, gaps: nat,
                               liquidityChanges: nat, implausible: nat, halves: int)

  type Plausible = (FeeSnap, FeeSnap, nat, nat) -> bool

  /** Growth per unit of liquidity, in native token units. */
  function Units(growth: nat, liquidity: nat): nat { growth * liquidity / Q64 }

  function Raw(later: Counter, earlier: Counter, liquidity: nat): nat {
    Units(WrapSub(later, earlier), liquidity)
  }

  function MeasureInterval(m: Measured, a: FeeSnap, b: FeeSnap, maxGap: int, ok: Plausible): Measured {
    var dt := b.t - a.t;
    if dt <= 0 then m
    else if dt > maxGap then m.(gaps := m.gaps + 1)
    else if a.liquidity != b.liquidity then m.(liquidityChanges := m.liquidityChanges + 1)
    else
      var rawA, rawB := Raw(b.insideA, a.insideA, a.liquidity), Raw(b.insideB, a.insideB, a.liquidity);
      if !ok(a, b, rawA, rawB) then m.(implausible := m.implausible + 1)
      else m.(feesA := m.feesA + rawA, feesB := m.feesB + rawB, covered := m.covered + dt,
              intervals := m.intervals + 1,
              halves := m.halves + (if a.inRange && b.inRange then 2 * dt else if a.inRange != b.inRange then dt else 0))
  }

  function MeasureAll(snaps: seq<FeeSnap>, maxGap: int, ok: Plausible): Measured {
    if |snaps| < 2 then Measured(0, 0, 0, 0, 0, 0, 0, 0)
    else
      var n := |snaps| - 1;
      MeasureInterval(MeasureAll(snaps[..n], maxGap, ok), snaps[n - 1], snaps[n], maxGap, ok)
  }

  /** None when not a single interval is usable. */
  method MeasurePositionFees(snaps: seq<FeeSnap>, maxGap: int, ok: Plausible) returns (r: Option<Measured>)
    ensures r == var m := MeasureAll(snaps, maxGap, ok);
                 if |snaps| < 2 || m.intervals == 0 || m.covered <= 0 then None else Some(m)
    ensures r.None? <==> forall i :: 0 <= i < |snaps| - 1 ==> !Usable((snaps[i], snaps[i + 1]), maxGap, ok)
  {
    MeasuredExactly(snaps, maxGap, ok);
    if |snaps| < 2 { return None; }
    var feesA: nat, feesB: nat, covered, intervals: nat := 0, 0, 0, 0;
    var gaps: nat, changes: nat, implausible: nat, halves := 0, 0, 0, 0;
    for i := 1 to |snaps|
      invariant Measured(feesA, feesB, covered, intervals, gaps, changes, implausible, halves)
                == MeasureAll(snaps[..i], maxGap, ok)
    {
      assert snaps[..i + 1][..i] == snaps[..i];
      var a, b := snaps[i - 1], snaps[i];
      var dt := b.t - a.t;
      if dt <= 0 { continue; }
      if dt > maxGap { gaps := gaps + 1; continue; }
      if a.liquidity != b.liquidity { changes := changes + 1; continue; }
      var rawA := Units(WrapSub(b.insideA, a.insideA), a.liquidity);
      var rawB := Units(WrapSub(b.insideB, a.insideB), a.liquidity);
      if !ok(a, b, rawA, rawB) { implausible := implausible + 1; continue; }
      feesA, feesB := feesA + rawA, feesB + rawB;
      covered := covered + dt;
      if a.inRange && b.inRange { halves := halves + 2 * dt; }
      else if a.inRange != b.inRange { halves := halves + dt; }
      intervals := intervals + 1;
    }
    assert snaps[..|snaps|] == snaps;
    if intervals == 0 || covered <= 0 { return None; }
    return Some(Measured(feesA, feesB, covered, intervals, gaps, changes, implausible, halves));
  }

  // ---- computeRangeFeeYield ----

  datatype RangeYield = RangeYield(feesA: nat, feesB: nat, totalSeconds: int, crossings: nat, halves: int)

  predicate PriceIn(p: real, lower: real, upper: real) { lower <= p <= upper }

  /** Twice the weight of an interval: 2 inside, 1 across a boundary, 0 outside on one side. */
  function Weight(a: real, b: real, lower: real, upper: real): nat {
    var inA, inB := PriceIn(a, lower, upper), PriceIn(b, lower, upper);
    if inA && inB then 2 else if inA != inB || (a < lower) != (b < lower) then 1 else 0
  }

  function EffectiveLiquidity(active: nat, liquidity: nat, dilute: bool): nat {
    if dilute && active + liquidity > 0 then liquidity * active / (active + liquidity) else liquidity
  }

  /** The product, the weight, and the two divisions, in the order of the code. */
  function Scaled(growth: nat, liquidity: nat, num: nat, den: nat): nat
    requires den > 0
  {
    growth * liquidity * num / den / Q64
  }

  function Weighted(later: Counter, earlier: Counter, liquidity: nat, weight: nat): nat {
    Scaled(WrapSub(later, earlier), liquidity, 1, if weight == 2 then 1 else 2)
  }

  function YieldInterval(y: RangeYield, a: PoolSnap, b: PoolSnap, lower: real, upper: real, liquidity: nat,
                         dilute: bool): RangeYield
  {
    var dt := b.t - a.t;
    if dt <= 0 then y
    else
      var w := Weight(a.price, b.price, lower, upper);
      var z := y.(totalSeconds := y.totalSeconds + dt, crossings := y.crossings + if w == 1 then 1 else 0);
      if w == 0 then z
      else
        var l := EffectiveLiquidity(a.liquidity, liquidity, dilute);
        z.(feesA := z.feesA + Weighted(b.globalA, a.globalA, l, w),
           feesB := z.feesB + Weighted(b.globalB, a.globalB, l, w), halves := z.halves + w * dt)
  }

  function YieldAll(snaps: seq<PoolSnap>, lower: real, upper: real, liquidity: nat, dilute: bool): RangeYield {
    if |snaps| < 2 then RangeYield(0, 0, 0, 0, 0)
    else
      var n := |snaps| - 1;
      YieldInterval(YieldAll(snaps[..n], lower, upper, liquidity, dilute), snaps[n - 1], snaps[n],
                    lower, upper, liquidity, dilute)
  }

  /** None when the range is empty: the code throws. */
  method ComputeRangeFeeYield(snaps: seq<PoolSnap>, lower: real, upper: real, liquidity: nat, dilute: bool)
    returns (r: Option<RangeYield>)
    ensures r == if |snaps| >= 2 && upper <= lower then None else Some(YieldAll(snaps, lower, upper, liquidity, dilute))
  {
    hide Scaled, EffectiveLiquidity;
    if |snaps| < 2 { return Some(RangeYield(0, 0, 0, 0, 0)); }
    if upper <= lower { return None; }
    var feesA: nat, feesB: nat, totalSeconds, crossings: nat, halves := 0, 0, 0, 0, 0;
    for i := 1 to |snaps|
      invariant RangeYield(feesA, feesB, totalSeconds, crossings, halves)
                == YieldAll(snaps[..i], lower, upper, liquidity, dilute)
    {
      assert snaps[..i + 1][..i] == snaps[..i];
      var a, b := snaps[i - 1], snaps[i];
      var dt := b.t - a.t;
      if dt <= 0 { continue; }
      totalSeconds := totalSeconds + dt;
      var inA, inB := PriceIn(a.price, lower, upper), PriceIn(b.price, lower, upper);
      var num, den := 0, 1;
      if inA && inB {
        num := 1;
      } else if inA != inB || (a.price < lower) != (b.price < lower) {
        num, den := 1, 2;
        crossings := crossings + 1;
      }
      if num == 0 { continue; }
      var l := EffectiveLiquidity(a.liquidity, liquidity, dilute);
      feesA := feesA + Scaled(WrapSub(b.globalA, a.globalA), l, num, den);
      feesB := feesB + Scaled(WrapSub(b.globalB, a.globalB), l, num, den);
      halves := halves + if den == 2 then dt else 2 * dt;
    }
    assert snaps[..|snaps|] == snaps;
    return Some(RangeYield(feesA, feesB, totalSeconds, crossings, halves));
  }

  // ---- What either measurement adds up ----

  type Interval = (FeeSnap, FeeSnap)
  type PoolInterval = (PoolSnap, PoolSnap)

  /** Neighbouring snapshots. */
  function Neighbours<T>(snaps: seq<T>): (r: seq<(T, T)>)
    ensures |r| == (if |snaps| < 2 then 0 else |snaps| - 1) && forall i :: 0 <= i < |r| ==> r[i] == (snaps[i], snaps[i + 1])
  {
    if |snaps| < 2 then [] else seq(|snaps| - 1, i requires 0 <= i < |snaps| - 1 => (snaps[i], snaps[i + 1]))
  }

  lemma NeighboursNext<T>(snaps: seq<T>)
    requires |snaps| >= 2
    ensures var n := |snaps| - 1;
            Neighbours(snaps) == Neighbours(snaps[..n]) + [(snaps[n - 1], snaps[n])]
  {
  }

  /** Time forward and no gap, one liquidity, and a plausible amount. */
  ghost predicate Usable(x: Interval, maxGap: int, ok: Plausible) {
    && 0 < x.1.t - x.0.t <= maxGap && x.0.liquidity == x.1.liquidity
    && ok(x.0, x.1, WrapSub(x.1.insideA, x.0.insideA) * x.0.liquidity / 0x1_0000_0000_0000_0000,
          WrapSub(x.1.insideB, x.0.insideB) * x.0.liquidity / 0x1_0000_0000_0000_0000)
  }

  ghost function FeesA(maxGap: int, ok: Plausible): Interval -> int {
    (x: Interval) =>
      if Usable(x, maxGap, ok) then WrapSub(x.1.insideA, x.0.insideA) * x.0.liquidity / 0x1_0000_0000_0000_0000 else 0
  }

  ghost function FeesB(maxGap: int, ok: Plausible): Interval -> int {
    (x: Interval) =>
      if Usable(x, maxGap, ok) then WrapSub(x.1.insideB, x.0.insideB) * x.0.liquidity / 0x1_0000_0000_0000_0000 else 0
  }

  ghost function Seconds(maxGap: int, ok: Plausible): Interval -> int {
    (x: Interval) => if Usable(x, maxGap, ok) then x.1.t - x.0.t else 0
  }

  /** Half seconds in range: both, one or none of the two halves of an interval. */
  ghost function Halves(maxGap: int, ok: Plausible): Interval -> int {
    (x: Interval) =>
      if Usable(x, maxGap, ok) then (x.1.t - x.0.t) * ((if x.0.inRange then 1 else 0) + (if x.1.inRange then 1 else 0)) else 0
  }

  ghost function One(maxGap: int, ok: Plausible): Interval -> int {
    (x: Interval) => if Usable(x, maxGap, ok) then 1 else 0
  }

  ghost function Gap(maxGap: int): Interval -> int {
    (x: Interval) => if 0 < x.1.t - x.0.t && maxGap < x.1.t - x.0.t then 1 else 0
  }

  ghost function Changed(maxGap: int): Interval -> int {
    (x: Interval) => if 0 < x.1.t - x.0.t <= maxGap && x.0.liquidity != x.1.liquidity then 1 else 0
  }

  ghost function Doubtful(maxGap: int, ok: Plausible): Interval -> int {
    (x: Interval) =>
      if 0 < x.1.t - x.0.t <= maxGap && x.0.liquidity == x.1.liquidity && !Usable(x, maxGap, ok) then 1 else 0
  }

  /**
   * Every total of a measurement is a sum over exactly the usable intervals; an interval that is not usable
   * adds one to the counter of its own reason and nothing else.
   */
  ghost predicate MeasuredSums(m: Measured, xs: seq<Interval>, maxGap: int, ok: Plausible) {
    && m.feesA == Sum(xs, FeesA(maxGap, ok)) && m.feesB == Sum(xs, FeesB(maxGap, ok))
    && m.covered == Sum(xs, Seconds(maxGap, ok)) && m.halves == Sum(xs, Halves(maxGap, ok))
    && m.intervals == Sum(xs, One(maxGap, ok))
    && m.gaps == Sum(xs, Gap(maxGap)) && m.liquidityChanges == Sum(xs, Changed(maxGap))
    && m.implausible == Sum(xs, Doubtful(maxGap, ok))
  }

  lemma MeasuredSumsNext(m: Measured, xs: seq<Interval>, a: FeeSnap, b: FeeSnap, maxGap: int, ok: Plausible)
    requires MeasuredSums(m, xs, maxGap, ok)
    ensures MeasuredSums(MeasureInterval(m, a, b, maxGap, ok), xs + [(a, b)], maxGap, ok)
  {
    hide Sum, FeesA, FeesB, Seconds, Halves, One, Gap, Changed, Doubtful, MeasureInterval;
    SumAppend(xs, (a, b), FeesA(maxGap, ok));
    SumAppend(xs, (a, b), FeesB(maxGap, ok));
    SumAppend(xs, (a, b), Seconds(maxGap, ok));
    SumAppend(xs, (a, b), Halves(maxGap, ok));
    SumAppend(xs, (a, b), One(maxGap, ok));
    SumAppend(xs, (a, b), Gap(maxGap));
    SumAppend(xs, (a, b), Changed(maxGap));
    SumAppend(xs, (a, b), Doubtful(maxGap, ok));
    IntervalAdds(m, a, b, maxGap, ok);
  }

  lemma {:induction false} MeasuredIsSums(snaps: seq<FeeSnap>, maxGap: int, ok: Plausible)
    ensures MeasuredSums(MeasureAll(snaps, maxGap, ok), Neighbours(snaps), maxGap, ok)
  {
    hide MeasureInterval;
    if |snaps| >= 2 {
      hide MeasuredSums;
      var n := |snaps| - 1;
      MeasuredIsSums(snaps[..n], maxGap, ok);
      NeighboursNext(snaps);
      MeasuredSumsNext(MeasureAll(snaps[..n], maxGap, ok), Neighbours(snaps[..n]), snaps[n - 1], snaps[n], maxGap, ok);
    }
  }

  lemma IntervalAdds(m: Measured, a: FeeSnap, b: FeeSnap, maxGap: int, ok: Plausible)
    ensures var m', x := MeasureInterval(m, a, b, maxGap, ok), (a, b);
      && m'.feesA == m.feesA + FeesA(maxGap, ok)(x) && m'.feesB == m.feesB + FeesB(maxGap, ok)(x)
      && m'.covered == m.covered + Seconds(maxGap, ok)(x) && m'.halves == m.halves + Halves(maxGap, ok)(x)
      && m'.intervals == m.intervals + One(maxGap, ok)(x)
      && m'.gaps == m.gaps + Gap(maxGap)(x) && m'.liquidityChanges == m.liquidityChanges + Changed(maxGap)(x)
      && m'.implausible == m.implausible + Doubtful(maxGap, ok)(x)
  {
    hide WrapSub;
  }

  /** There is a measurement exactly when there is a usable interval. */
  lemma MeasuredExactly(snaps: seq<FeeSnap>, maxGap: int, ok: Plausible)
    ensures var m := MeasureAll(snaps, maxGap, ok);
            |snaps| >= 2 && m.intervals != 0 && m.covered > 0
            <==> exists i :: 0 <= i < |snaps| - 1 && Usable((snaps[i], snaps[i + 1]), maxGap, ok)
  {
    MeasuredIsSums(snaps, maxGap, ok);
    var xs := Neighbours(snaps);
    if i :| 0 <= i < |xs| && Usable(xs[i], maxGap, ok) {
      SumDominates(xs, i, One(maxGap, ok));
      SumDominates(xs, i, Seconds(maxGap, ok));
      assert Usable((snaps[i], snaps[i + 1]), maxGap, ok);
    } else {
      SumZero(xs, One(maxGap, ok));
      forall i | 0 <= i < |snaps| - 1 ensures !Usable((snaps[i], snaps[i + 1]), maxGap, ok) {
        assert xs[i] == (snaps[i], snaps[i + 1]);
      }
    }
  }

  /** How much of the interval the price was in range, in halves: whole, across a boundary, or none. */
  ghost function InHalves(x: PoolInterval, lower: real, upper: real): nat {
    if x.1.t <= x.0.t then 0
    else if lower <= x.0.price <= upper && lower <= x.1.price <= upper then 2
    else if (x.0.price < lower && x.1.price < lower) || (x.0.price > upper && x.1.price > upper) then 0
    else 1
  }

  /** The fees of an interval go by the position's share of the liquidity with it in, when that is asked for. */
  ghost function ShareOf(growth: nat, active: nat, liquidity: nat, dilute: bool, halves: nat): nat {
    var l := if dilute && active + liquidity > 0 then liquidity * active / (active + liquidity) else liquidity;
    if halves == 2 then growth * l / 0x1_0000_0000_0000_0000
    else if halves == 1 then growth * l / 2 / 0x1_0000_0000_0000_0000
    else 0
  }

  ghost function YieldA(lower: real, upper: real, liquidity: nat, dilute: bool): PoolInterval -> int {
    (x: PoolInterval) =>
      ShareOf(WrapSub(x.1.globalA, x.0.globalA), x.0.liquidity, liquidity, dilute, InHalves(x, lower, upper))
  }

  ghost function YieldB(lower: real, upper: real, liquidity: nat, dilute: bool): PoolInterval -> int {
    (x: PoolInterval) =>
      ShareOf(WrapSub(x.1.globalB, x.0.globalB), x.0.liquidity, liquidity, dilute, InHalves(x, lower, upper))
  }

  ghost function InRangeHalves(lower: real, upper: real): PoolInterval -> int {
    (x: PoolInterval) => InHalves(x, lower, upper) * (x.1.t - x.0.t)
  }

  ghost function Crossing(lower: real, upper: real): PoolInterval -> int {
    (x: PoolInterval) => if InHalves(x, lower, upper) == 1 then 1 else 0
  }

  ghost function Elapsed(): PoolInterval -> int {
    (x: PoolInterval) => if x.1.t > x.0.t then x.1.t - x.0.t else 0
  }

  ghost predicate YieldSums(y: RangeYield, xs: seq<PoolInterval>, lower: real, upper: real, liquidity: nat, dilute: bool) {
    && y.feesA == Sum(xs, YieldA(lower, upper, liquidity, dilute))
    && y.feesB == Sum(xs, YieldB(lower, upper, liquidity, dilute))
    && y.halves == Sum(xs, InRangeHalves(lower, upper)) && y.crossings == Sum(xs, Crossing(lower, upper))
    && y.totalSeconds == Sum(xs, Elapsed())
  }

  lemma YieldSumsNext(y: RangeYield, xs: seq<PoolInterval>, a: PoolSnap, b: PoolSnap, lower: real, upper: real,
                      liquidity: nat, dilute: bool)
    requires lower < upper && YieldSums(y, xs, lower, upper, liquidity, dilute)
    ensures YieldSums(YieldInterval(y, a, b, lower, upper, liquidity, dilute), xs + [(a, b)], lower, upper, liquidity, dilute)
  {
    hide Sum, YieldA, YieldB, InRangeHalves, Crossing, Elapsed, YieldInterval;
    SumAppend(xs, (a, b), YieldA(lower, upper, liquidity, dilute));
    SumAppend(xs, (a, b), YieldB(lower, upper, liquidity, dilute));
    SumAppend(xs, (a, b), InRangeHalves(lower, upper));
    SumAppend(xs, (a, b), Crossing(lower, upper));
    SumAppend(xs, (a, b), Elapsed());
    YieldAdds(y, a, b, lower, upper, liquidity, dilute);
  }

  /** The estimate from the pool's own accumulators is a sum over its intervals of the shares in range. */
  lemma {:induction false} YieldIsSums(snaps: seq<PoolSnap>, lower: real, upper: real, liquidity: nat, dilute: bool)
    requires lower < upper
    ensures YieldSums(YieldAll(snaps, lower, upper, liquidity, dilute), Neighbours(snaps), lower, upper, liquidity, dilute)
  {
    hide YieldInterval;
    if |snaps| >= 2 {
      hide YieldSums;
      var n := |snaps| - 1;
      YieldIsSums(snaps[..n], lower, upper, liquidity, dilute);
      NeighboursNext(snaps);
      YieldSumsNext(YieldAll(snaps[..n], lower, upper, liquidity, dilute), Neighbours(snaps[..n]), snaps[n - 1], snaps[n],
                    lower, upper, liquidity, dilute);
    }
  }

  lemma YieldAdds(y: RangeYield, a: PoolSnap, b: PoolSnap, lower: real, upper: real, liquidity: nat, dilute: bool)
    requires lower < upper
    ensures var y', x := YieldInterval(y, a, b, lower, upper, liquidity, dilute), (a, b);
      && y'.feesA == y.feesA + YieldA(lower, upper, liquidity, dilute)(x)
      && y'.feesB == y.feesB + YieldB(lower, upper, liquidity, dilute)(x)
      && y'.halves == y.halves + InRangeHalves(lower, upper)(x) && y'.crossings == y.crossings + Crossing(lower, upper)(x)
      && y'.totalSeconds == y.totalSeconds + Elapsed()(x)
  {
    hide WrapSub, Scaled, EffectiveLiquidity, ShareOf;
    var h := InHalves((a, b), lower, upper);
    WeightIsHalves(a, b, lower, upper);
    WeightedIsShare(WrapSub(b.globalA, a.globalA), a.liquidity, liquidity, dilute, h);
    WeightedIsShare(WrapSub(b.globalB, a.globalB), a.liquidity, liquidity, dilute, h);
  }

  lemma WeightIsHalves(a: PoolSnap, b: PoolSnap, lower: real, upper: real)
    requires lower < upper
    ensures b.t > a.t ==> Weight(a.price, b.price, lower, upper) == InHalves((a, b), lower, upper)
  {
  }

  lemma WeightedIsShare(growth: nat, active: nat, liquidity: nat, dilute: bool, halves: nat)
    requires halves <= 2
    ensures ShareOf(growth, active, liquidity, dilute, halves)
         == if halves == 0 then 0 else Scaled(growth, EffectiveLiquidity(active, liquidity, dilute), 1, if halves == 2 then 1 else 2)
  {
    var l := EffectiveLiquidity(active, liquidity, dilute);
    assert growth * l * 1 == growth * l && growth * l / 1 == growth * l;
  }

  // ---- The window both look at ----

  /** The price never leaves (or, with inside false, never enters) the range during these steps. */
  ghost predicate Stays(r: Range, p: Pool, steps: seq<Step>, inside: bool) {
    r.Holds(p.tick) == inside &&
    (steps != [] ==> Stays(r, p, steps[..|steps| - 1], inside) && r.Holds(Run(r, p, steps).tick) == inside)
  }

  /** Both series are read off the same pool, at the same times, with nothing to skip. */
  ghost predicate SameWindow(r: Range, instants: seq<Pool>, swaps: seq<seq<Step>>, fees: seq<FeeSnap>,
                             pools: seq<PoolSnap>, liquidity: nat, maxGap: int, ok: Plausible)
  {
    && Timeline(r, instants, swaps) && |fees| == |pools| == |instants|
    && (forall k :: 0 <= k < |fees| ==>
          && fees[k].liquidity == liquidity && fees[k].t == pools[k].t
          && fees[k].insideA == Inside(r, instants[k].a, instants[k].tick)
          && fees[k].insideB == Inside(r, instants[k].b, instants[k].tick)
          && pools[k].globalA == instants[k].a.global && pools[k].globalB == instants[k].b.global)
    && (forall k :: 0 <= k < |swaps| ==> 0 < fees[k + 1].t - fees[k].t <= maxGap)
    && (forall a, b, x, y :: ok(a, b, x, y))
  }

  lemma {:induction false} StaysEarned(r: Range, p: Pool, steps: seq<Step>, inside: bool)
    requires Stays(r, p, steps, inside)
    ensures EarnedA(r, p, steps) == if inside then TotalA(steps) else 0
    ensures EarnedB(r, p, steps) == if inside then TotalB(steps) else 0
    ensures r.Holds(Run(r, p, steps).tick) == inside
  {
    if steps != [] {
      StaysEarned(r, p, steps[..|steps| - 1], inside);
    }
  }

  lemma DeltaModulo(x: Counter, d: nat)
    ensures WrapSub(Wrap(x + d), x) == Wrap(d)
  {
    WrapAbsorbs(d, x);
    DeltaOf(x, Wrap(d));
  }

  /** Over one interval the two accumulators move alike inside the range, and the inside one rests outside. */
  lemma IntervalDeltas(r: Range, p: Pool, steps: seq<Step>, inside: bool)
    requires r.Proper() && Stays(r, p, steps, inside)
    ensures var q := Run(r, p, steps);
      && WrapSub(Inside(r, q.a, q.tick), Inside(r, p.a, p.tick)) == (if inside then WrapSub(q.a.global, p.a.global) else 0)
      && WrapSub(Inside(r, q.b, q.tick), Inside(r, p.b, p.tick)) == (if inside then WrapSub(q.b.global, p.b.global) else 0)
  {
    hide Wrap, WrapSub, Inside, Run;
    StaysEarned(r, p, steps, inside);
    AccumulatorIsExact(r, p, steps);
    GlobalMoves(r, p, steps);
    DeltaModulo(Inside(r, p.a, p.tick), EarnedA(r, p, steps));
    DeltaModulo(Inside(r, p.b, p.tick), EarnedB(r, p, steps));
    DeltaModulo(p.a.global, TotalA(steps));
    DeltaModulo(p.b.global, TotalB(steps));
    WrapKeeps(0);
  }

  lemma WindowPrefix(r: Range, instants: seq<Pool>, swaps: seq<seq<Step>>, fees: seq<FeeSnap>,
                     pools: seq<PoolSnap>, liquidity: nat, maxGap: int, ok: Plausible, n: nat)
    requires SameWindow(r, instants, swaps, fees, pools, liquidity, maxGap, ok) && n <= |swaps|
    ensures SameWindow(r, instants[..n + 1], swaps[..n], fees[..n + 1], pools[..n + 1], liquidity, maxGap, ok)
  {
  }

  /** An interval with nothing to skip adds its floored product. */
  lemma MeasureStep(m: Measured, a: FeeSnap, b: FeeSnap, maxGap: int, ok: Plausible, liquidity: nat)
    requires 0 < b.t - a.t <= maxGap && a.liquidity == b.liquidity == liquidity
    requires forall x, y, u, v :: ok(x, y, u, v)
    ensures var m' := MeasureInterval(m, a, b, maxGap, ok);
      && m'.feesA == m.feesA + Raw(b.insideA, a.insideA, liquidity)
      && m'.feesB == m.feesB + Raw(b.insideB, a.insideB, liquidity)
      && m'.intervals == m.intervals + 1
  {
  }

  lemma YieldStep(y: RangeYield, a: PoolSnap, b: PoolSnap, lower: real, upper: real, liquidity: nat,
                  inside: bool, below: bool)
    requires lower < upper && b.t > a.t
    requires if inside then PriceIn(a.price, lower, upper) && PriceIn(b.price, lower, upper)
             else if below then a.price < lower && b.price < lower else a.price > upper && b.price > upper
    ensures var y' := YieldInterval(y, a, b, lower, upper, liquidity, false);
      && y'.feesA == y.feesA + (if inside then Raw(b.globalA, a.globalA, liquidity) else 0)
      && y'.feesB == y.feesB + (if inside then Raw(b.globalB, a.globalB, liquidity) else 0)
      && y'.crossings == y.crossings
  {
    WholeWeight(WrapSub(b.globalA, a.globalA), liquidity);
    WholeWeight(WrapSub(b.globalB, a.globalB), liquidity);
  }

  lemma WholeWeight(growth: nat, liquidity: nat)
    ensures Scaled(growth, liquidity, 1, 1) == Units(growth, liquidity)
  {
    assert growth * liquidity * 1 / 1 == growth * liquidity;
  }

  lemma NoGrowthNoRaw(later: Counter, earlier: Counter, liquidity: nat)
    requires WrapSub(later, earlier) == 0
    ensures Raw(later, earlier, liquidity) == 0
  {
  }

  /**
   * For a window spent wholly inside the range, both measurements give the same native totals, even
   * when a counter wraps; for one spent wholly outside on one side, both give zero.
   */
  lemma {:induction false} TwoPathsAgree(r: Range, instants: seq<Pool>, swaps: seq<seq<Step>>, fees: seq<FeeSnap>,
                                         pools: seq<PoolSnap>, liquidity: nat, maxGap: int, ok: Plausible,
                                         lower: real, upper: real, inside: bool, below: bool)
    requires r.Proper() && lower < upper
    requires SameWindow(r, instants, swaps, fees, pools, liquidity, maxGap, ok)
    requires forall k :: 0 <= k < |swaps| ==> Stays(r, instants[k], swaps[k], inside)
    requires forall k :: 0 <= k < |pools| ==>
      if inside then PriceIn(pools[k].price, lower, upper)
      else if below then pools[k].price < lower else pools[k].price > upper
    ensures var m, y := MeasureAll(fees, maxGap, ok), YieldAll(pools, lower, upper, liquidity, false);
      && m.feesA == y.feesA && m.feesB == y.feesB
      && m.intervals == |swaps| && y.crossings == 0
      && (!inside ==> m.feesA == 0 && m.feesB == 0)
  {
    var n := |swaps|;
    if n > 0 {
      WindowPrefix(r, instants, swaps, fees, pools, liquidity, maxGap, ok, n - 1);
      hide WrapSub, Inside, Run, MeasureInterval, YieldInterval, PriceIn, Stays;
      TwoPathsAgree(r, instants[..n], swaps[..n - 1], fees[..n], pools[..n], liquidity, maxGap, ok, lower, upper,
                    inside, below);
      IntervalDeltas(r, instants[n - 1], swaps[n - 1], inside);
      MeasureStep(MeasureAll(fees[..n], maxGap, ok), fees[n - 1], fees[n], maxGap, ok, liquidity);
      YieldStep(YieldAll(pools[..n], lower, upper, liquidity, false), pools[n - 1], pools[n], lower, upper, liquidity,
                inside, below);
      if !inside {
        NoGrowthNoRaw(fees[n].insideA, fees[n - 1].insideA, liquidity);
        NoGrowthNoRaw(fees[n].insideB, fees[n - 1].insideB, liquidity);
      }
    }
  }

  // ---- Against one end-to-end reading ----

  datatype Token = TokenA | TokenB

  function InsideOf(token: Token, s: FeeSnap): Counter { if token.TokenA? then s.insideA else s.insideB }

  function GrowthOf(token: Token, p: Pool): Growth { if token.TokenA? then p.a else p.b }

  function FeesOf(token: Token, m: Measured): nat { if token.TokenA? then m.feesA else m.feesB }

  function Earned(token: Token, r: Range, p: Pool, steps: seq<Step>): nat {
    if token.TokenA? then EarnedA(r, p, steps) else EarnedB(r, p, steps)
  }

  lemma FloorOfSum(x: nat, y: nat)
    ensures x / Q64 + y / Q64 <= (x + y) / Q64 <= x / Q64 + y / Q64 + 1
  {
  }

  /** The position's own measurement, and the growth it measures, over a window with nothing to skip. */
  lemma {:induction false} MeasuredBelowPending(token: Token, r: Range, instants: seq<Pool>, swaps: seq<seq<Step>>,
                                                fees: seq<FeeSnap>, pools: seq<PoolSnap>, liquidity: nat,
                                                maxGap: int, ok: Plausible)
    requires r.Proper() && |swaps| > 0
    requires SameWindow(r, instants, swaps, fees, pools, liquidity, maxGap, ok)
    requires Window(token, r, instants, swaps) < U128
    ensures var m, whole := FeesOf(token, MeasureAll(fees, maxGap, ok)), Units(Window(token, r, instants, swaps), liquidity);
      m <= whole <= m + |swaps| - 1
    ensures InsideOf(token, fees[|swaps|]) == Wrap(InsideOf(token, fees[0]) + Window(token, r, instants, swaps))
  {
    hide SameWindow, WrapSub, Inside, Run, Wrap, EarnedA, EarnedB, MeasureInterval, Units;
    SameLength(r, instants, swaps, fees, pools, liquidity, maxGap, ok);
    var n := |swaps|;
    var d := Earned(token, r, instants[n - 1], swaps[n - 1]);
    LastInterval(token, r, instants, swaps, fees, pools, liquidity, maxGap, ok, d);
    WindowPrefix(r, instants, swaps, fees, pools, liquidity, maxGap, ok, n - 1);
    MeasureStep(MeasureAll(fees[..n], maxGap, ok), fees[n - 1], fees[n], maxGap, ok, liquidity);
    var w := Window(token, r, instants[..n], swaps[..n - 1]);
    SplitFloors(w, d, liquidity);
    if n > 1 {
      MeasuredBelowPending(token, r, instants[..n], swaps[..n - 1], fees[..n], pools[..n], liquidity, maxGap, ok);
      WrapAbsorbs(InsideOf(token, fees[0]) + w, d);
    }
  }

  lemma LastInterval(token: Token, r: Range, instants: seq<Pool>, swaps: seq<seq<Step>>, fees: seq<FeeSnap>,
                     pools: seq<PoolSnap>, liquidity: nat, maxGap: int, ok: Plausible, d: nat)
    requires r.Proper() && |swaps| > 0
    requires SameWindow(r, instants, swaps, fees, pools, liquidity, maxGap, ok)
    requires d == Earned(token, r, instants[|swaps| - 1], swaps[|swaps| - 1]) < U128
    ensures var a, b := fees[|swaps| - 1], fees[|swaps|];
      && |instants| == |fees| == |pools| == |swaps| + 1
      && 0 < b.t - a.t <= maxGap && a.liquidity == b.liquidity == liquidity
      && WrapSub(InsideOf(token, b), InsideOf(token, a)) == d
      && InsideOf(token, b) == Wrap(InsideOf(token, a) + d)
    ensures forall x, y, u, v :: ok(x, y, u, v)
  {
    hide Inside, Run, Wrap, WrapSub, EarnedA, EarnedB;
    var n := |swaps|;
    assert instants[n] == Run(r, instants[n - 1], swaps[n - 1]);
    DeltaIsEarnedOf(token, r, instants[n - 1], swaps[n - 1]);
    AccumulatorIsExact(r, instants[n - 1], swaps[n - 1]);
  }

  lemma SplitFloors(w: nat, d: nat, liquidity: nat)
    ensures Units(w, liquidity) + Units(d, liquidity) <= Units(w + d, liquidity)
    ensures Units(w + d, liquidity) <= Units(w, liquidity) + Units(d, liquidity) + 1
    ensures Units(0, liquidity) == 0
  {
    assert (w + d) * liquidity == w * liquidity + d * liquidity;
    FloorOfSum(w * liquidity, d * liquidity);
  }

  /** Growth in range over the whole window. */
  function Window(token: Token, r: Range, instants: seq<Pool>, swaps: seq<seq<Step>>): nat
    requires |instants| == |swaps| + 1
  {
    if swaps == [] then 0
    else
      var n := |swaps| - 1;
      Window(token, r, instants[..n + 1], swaps[..n]) + Earned(token, r, instants[n], swaps[n])
  }

  lemma DeltaIsEarnedOf(token: Token, r: Range, p: Pool, steps: seq<Step>)
    requires r.Proper() && Earned(token, r, p, steps) < U128
    ensures var q := Run(r, p, steps);
      WrapSub(Inside(r, GrowthOf(token, q), q.tick), Inside(r, GrowthOf(token, p), p.tick)) == Earned(token, r, p, steps)
  {
    hide Inside, Wrap, WrapSub, Run, EarnedA, EarnedB;
    AccumulatorIsExact(r, p, steps);
    DeltaOf(Inside(r, GrowthOf(token, p), p.tick), Earned(token, r, p, steps));
  }

  /**
   * Summing floors over n intervals loses at most n - 1 units against one end-to-end reading of the
   * pending fees from the same checkpoint.
   */
  lemma IntervalsLoseLittle(token: Token, r: Range, instants: seq<Pool>, swaps: seq<seq<Step>>, fees: seq<FeeSnap>,
                            pools: seq<PoolSnap>, liquidity: nat, maxGap: int, ok: Plausible, owed: nat)
    requires r.Proper() && |swaps| > 0
    requires SameWindow(r, instants, swaps, fees, pools, liquidity, maxGap, ok)
    requires Window(token, r, instants, swaps) < U128
    ensures var m := FeesOf(token, MeasureAll(fees, maxGap, ok));
            var pending := PendingFees(liquidity, owed, InsideOf(token, fees[|swaps|]), InsideOf(token, fees[0]));
      owed + m <= pending <= owed + m + |swaps| - 1
  {
    hide SameWindow, Window, Wrap, WrapSub, Units, MeasureAll, PendingFees;
    SameLength(r, instants, swaps, fees, pools, liquidity, maxGap, ok);
    var w := Window(token, r, instants, swaps);
    MeasuredBelowPending(token, r, instants, swaps, fees, pools, liquidity, maxGap, ok);
    PendingIsUnits(liquidity, owed, InsideOf(token, fees[0]), w);
  }

  lemma SameLength(r: Range, instants: seq<Pool>, swaps: seq<seq<Step>>, fees: seq<FeeSnap>,
                   pools: seq<PoolSnap>, liquidity: nat, maxGap: int, ok: Plausible)
    requires SameWindow(r, instants, swaps, fees, pools, liquidity, maxGap, ok)
    ensures |fees| == |instants| == |swaps| + 1
  {
  }

  lemma PendingIsUnits(liquidity: nat, owed: nat, checkpoint: Counter, w: Counter)
    ensures PendingFees(liquidity, owed, Wrap(checkpoint + w), checkpoint) == owed + Units(w, liquidity)
  {
    DeltaOf(checkpoint, w);
  }
}
