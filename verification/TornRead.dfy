/**
 * The torn-read gate: pool, tick arrays and pool again are read at different instants, with swaps in
 * between, and only a pool whose accumulators and tick did not move is trusted.
 */
module TornRead {
  import opened FeeGrowth

  // ---- Time ----

  /** instants[k] is the pool after k swaps. */
  ghost predicate Timeline(r: Range, instants: seq<Pool>, swaps: seq<seq<Step>>) {
    && |instants| == |swaps| + 1
    && forall k :: 0 <= k < |swaps| ==> instants[k + 1] == Run(r, instants[k], swaps[k])
  }

  function TotalA(steps: seq<Step>): nat {
    if steps == [] then 0
    else TotalA(steps[..|steps| - 1]) + (match steps[|steps| - 1] case Accrue(da, _) => da case Move(_) => 0)
  }

  function TotalB(steps: seq<Step>): nat {
    if steps == [] then 0
    else TotalB(steps[..|steps| - 1]) + (match steps[|steps| - 1] case Accrue(_, db) => db case Move(_) => 0)
  }

  /** The swap crosses a boundary of the range at some point. */
  predicate Touches(r: Range, p: Pool, steps: seq<Step>) {
    steps != [] &&
    var before, st := steps[..|steps| - 1], steps[|steps| - 1];
    || Touches(r, p, before)
    || (st.Move? && var t := Run(r, p, before).tick; Crosses(r.lower, t, st.tick) || Crosses(r.upper, t, st.tick))
  }

  /** A swap large enough to cross a boundary pays a fee. */
  ghost predicate CrossingsPay(r: Range, instants: seq<Pool>, swaps: seq<seq<Step>>)
    requires |instants| == |swaps| + 1
  {
    forall k :: 0 <= k < |swaps| && Touches(r, instants[k], swaps[k]) ==> TotalA(swaps[k]) + TotalB(swaps[k]) > 0
  }

  function GrownA(swaps: seq<seq<Step>>): nat {
    if swaps == [] then 0 else GrownA(swaps[..|swaps| - 1]) + TotalA(swaps[|swaps| - 1])
  }

  function GrownB(swaps: seq<seq<Step>>): nat {
    if swaps == [] then 0 else GrownB(swaps[..|swaps| - 1]) + TotalB(swaps[|swaps| - 1])
  }

  lemma {:induction false} GlobalMoves(r: Range, p: Pool, steps: seq<Step>)
    ensures Run(r, p, steps).a.global == Wrap(p.a.global + TotalA(steps))
    ensures Run(r, p, steps).b.global == Wrap(p.b.global + TotalB(steps))
  {
    if steps == [] {
      WrapKeeps(p.a.global);
      WrapKeeps(p.b.global);
    } else {
      var before, st := steps[..|steps| - 1], steps[|steps| - 1];
      GlobalMoves(r, p, before);
      hide Wrap;
      if st.Accrue? {
        WrapAbsorbs(p.a.global + TotalA(before), st.da);
        WrapAbsorbs(p.b.global + TotalB(before), st.db);
      }
    }
  }

  /** Without a crossing, the outside counters stand still. */
  lemma {:induction false} OutsideStays(r: Range, p: Pool, steps: seq<Step>)
    requires !Touches(r, p, steps)
    ensures var q := Run(r, p, steps);
      q.a.lower == p.a.lower && q.a.upper == p.a.upper && q.b.lower == p.b.lower && q.b.upper == p.b.upper
  {
    if steps != [] {
      OutsideStays(r, p, steps[..|steps| - 1]);
    }
  }

  lemma {:induction false} GlobalOverTime(r: Range, instants: seq<Pool>, swaps: seq<seq<Step>>, n: nat)
    requires Timeline(r, instants, swaps) && n <= |swaps|
    ensures instants[n].a.global == Wrap(instants[0].a.global + GrownA(swaps[..n]))
    ensures instants[n].b.global == Wrap(instants[0].b.global + GrownB(swaps[..n]))
  {
    if n == 0 {
      WrapKeeps(instants[0].a.global);
      WrapKeeps(instants[0].b.global);
    } else {
      GlobalOverTime(r, instants, swaps, n - 1);
      GlobalMoves(r, instants[n - 1], swaps[n - 1]);
      assert swaps[..n][..n - 1] == swaps[..n - 1];
      hide Wrap;
      WrapAbsorbs(instants[0].a.global + GrownA(swaps[..n - 1]), TotalA(swaps[n - 1]));
      WrapAbsorbs(instants[0].b.global + GrownB(swaps[..n - 1]), TotalB(swaps[n - 1]));
    }
  }

  /** A counter that grew by less than a whole turn and reads the same has not grown. */
  lemma SameReadingNoGrowth(x: Counter, d: nat)
    requires d < U128 && Wrap(x + d) == x
    ensures d == 0
  {
    DeltaOf(x, d);
  }

  lemma {:induction false} NoGrowthNoFees(swaps: seq<seq<Step>>, k: nat)
    requires k < |swaps| && GrownA(swaps) == 0 && GrownB(swaps) == 0
    ensures TotalA(swaps[k]) == 0 && TotalB(swaps[k]) == 0
  {
    if k < |swaps| - 1 {
      NoGrowthNoFees(swaps[..|swaps| - 1], k);
    }
  }

  /** While no fee is paid, no boundary is crossed and the outside counters read the same throughout. */
  lemma {:induction false} OutsideOverTime(r: Range, instants: seq<Pool>, swaps: seq<seq<Step>>, n: nat)
    requires Timeline(r, instants, swaps) && CrossingsPay(r, instants, swaps) && n <= |swaps|
    requires GrownA(swaps) == 0 && GrownB(swaps) == 0
    ensures instants[n].a.lower == instants[0].a.lower && instants[n].a.upper == instants[0].a.upper
    ensures instants[n].b.lower == instants[0].b.lower && instants[n].b.upper == instants[0].b.upper
  {
    if n > 0 {
      OutsideOverTime(r, instants, swaps, n - 1);
      NoGrowthNoFees(swaps, n - 1);
      OutsideStays(r, instants[n - 1], swaps[n - 1]);
    }
  }

  // ---- The gate ----

  datatype PoolRead = PoolRead(tick: int, globalA: Counter, globalB: Counter, tickSpacing: nat)
  datatype TickRead = TickRead(outsideA: Counter, outsideB: Counter)
  datatype InsidePair = InsidePair(a: Counter, b: Counter)

  predicate Stable(first: PoolRead, again: PoolRead) {
    again.globalA == first.globalA && again.globalB == first.globalB && again.tick == first.tick
  }

  /** What the readers attach: pool state of the first read, tick state of the second. */
  function Reconstruct(r: Range, pool: PoolRead, lower: TickRead, upper: TickRead): InsidePair {
    InsidePair(FeeGrowthInsideOwed(pool.globalA, lower.outsideA, upper.outsideA, pool.tick, r.lower, r.upper),
               FeeGrowthInsideOwed(pool.globalB, lower.outsideB, upper.outsideB, pool.tick, r.lower, r.upper))
  }

  function InsideAt(r: Range, p: Pool): InsidePair {
    InsidePair(Inside(r, p.a, p.tick), Inside(r, p.b, p.tick))
  }

  /** Which instant each read saw: first pool read at 0, tick reads in between, re-read at the end. */
  ghost predicate ReadFrom(instants: seq<Pool>, first: PoolRead, lower: TickRead, upper: TickRead, again: PoolRead,
                           jl: nat, ju: nat)
  {
    && jl < |instants| && ju < |instants|
    && (var p := instants[0]; first.tick == p.tick && first.globalA == p.a.global && first.globalB == p.b.global)
    && (var p := instants[|instants| - 1];
        again.tick == p.tick && again.globalA == p.a.global && again.globalB == p.b.global)
    && lower == TickRead(instants[jl].a.lower, instants[jl].b.lower)
    && upper == TickRead(instants[ju].a.upper, instants[ju].b.upper)
  }

  /**
   * With swaps between any two reads, growth between the first and the last read below a whole turn,
   * and every boundary crossing paying a fee: what passes the gate is the inside growth of the
   * instant of the first read.
   */
  lemma GateIsSound(r: Range, instants: seq<Pool>, swaps: seq<seq<Step>>, first: PoolRead, lower: TickRead,
                    upper: TickRead, again: PoolRead, jl: nat, ju: nat)
    requires Timeline(r, instants, swaps) && CrossingsPay(r, instants, swaps)
    requires GrownA(swaps) < U128 && GrownB(swaps) < U128
    requires ReadFrom(instants, first, lower, upper, again, jl, ju)
    requires Stable(first, again)
    ensures Reconstruct(r, first, lower, upper) == InsideAt(r, instants[0])
  {
    var n := |swaps|;
    assert swaps[..n] == swaps;
    GlobalOverTime(r, instants, swaps, n);
    SameReadingNoGrowth(instants[0].a.global, GrownA(swaps));
    SameReadingNoGrowth(instants[0].b.global, GrownB(swaps));
    OutsideOverTime(r, instants, swaps, jl);
    OutsideOverTime(r, instants, swaps, ju);
  }

  /** The gate lets a pool through that reads the same at the end as at the start, and no other. */
  lemma RestingPoolPasses(instants: seq<Pool>, first: PoolRead, lower: TickRead, upper: TickRead, again: PoolRead,
                          jl: nat, ju: nat)
    requires ReadFrom(instants, first, lower, upper, again, jl, ju)
    ensures var p, q := instants[0], instants[|instants| - 1];
            Stable(first, again) <==> p.tick == q.tick && p.a.global == q.a.global && p.b.global == q.b.global
  {
  }

  /**
   * The fee on a crossing is what the gate stands on: two free crossings around the tick read pass the
   * gate with a value that the position had at no instant.
   */
  lemma FreeCrossingsFoolTheGate() returns (r: Range, instants: seq<Pool>, swaps: seq<seq<Step>>,
                                            first: PoolRead, lower: TickRead, upper: TickRead, again: PoolRead)
    ensures r.Proper() && Timeline(r, instants, swaps) && GrownA(swaps) == 0 && GrownB(swaps) == 0
    ensures ReadFrom(instants, first, lower, upper, again, 1, 1) && Stable(first, again)
    ensures forall k :: 0 <= k < |instants| ==> Reconstruct(r, first, lower, upper) != InsideAt(r, instants[k])
  {
    r := Range(0, 10);
    var g := Growth(10, 3, 0);
    var p := Pool(5, g, g);
    var down: seq<Step>, up: seq<Step> := [Move(-1)], [Move(5)];
    swaps := [down, up];
    assert down[..0] == [] && up[..0] == [];
    var q := Run(r, p, down);
    assert q == Pool(-1, Growth(10, 7, 0), Growth(10, 7, 0));
    assert Run(r, q, up) == p;
    instants := [p, q, p];
    first, again := PoolRead(5, 10, 10, 1), PoolRead(5, 10, 10, 1);
    lower, upper := TickRead(7, 7), TickRead(0, 0);
    assert TotalA(down) == TotalB(down) == 0 && TotalA(up) == TotalB(up) == 0;
    assert swaps[..1] == [down] && [down][..0] == [];
    assert GrownA([down]) == GrownB([down]) == 0;
    assert InsideAt(r, p) == InsidePair(7, 7);
    assert InsideAt(r, q) == InsidePair(7, 7);
    assert Reconstruct(r, first, lower, upper) == InsidePair(3, 3);
  }
}
