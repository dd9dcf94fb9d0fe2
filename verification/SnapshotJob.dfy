/** position-snapshot-job.ts: one capture cycle, from batched account reads to gated snapshots. */
module SnapshotJob {
  import opened Outcomes
  import opened HedgeTypes
  import opened FeeGrowth
  import opened TornRead

  datatype PositionRead = PositionRead(pool: Key, range: Range, liquidity: nat)
  datatype Addr = PositionAddr(position: Key) | PoolAddr(pool: Key) | TickArrayAddr(pool: Key, start: int)

  /** Decoded account data; anything that does not decode is Garbage. */
  datatype Account =
    | PositionAccount(read: PositionRead)
    | PoolAccount(pool: PoolRead)
    | TickArrayAccount(ticks: nat -> TickRead)
    | Garbage

  datatype FeeSnapshot = FeeSnapshot(t: int, pool: Key, liquidity: nat, insideA: Counter, insideB: Counter, inRange: bool)

  /** What one call of readAccounts finds at each address. */
  type Answers = Addr -> Option<Account>

  const TICKS_PER_ARRAY: int := 88

  /** Math.floor of the quotient; Dafny's division by a positive number floors too. */
  function ArrayStart(tick: int, spacing: nat): int {
    var span := TICKS_PER_ARRAY * spacing;
    if span == 0 then 0 else tick / span * span
  }

  /** None when the tick is not a multiple of the spacing: the reader throws. */
  function ReadTick(ticks: nat -> TickRead, tick: int, spacing: nat): Option<TickRead> {
    var start := ArrayStart(tick, spacing);
    if spacing == 0 || tick < start || tick >= start + TICKS_PER_ARRAY * spacing || (tick - start) % spacing != 0
    then None
    else Some(ticks((tick - start) / spacing))
  }

  /** The array that is fetched for a tick is the one that holds it. */
  lemma ArrayHoldsTick(ticks: nat -> TickRead, tick: int, spacing: nat)
    requires spacing > 0
    ensures ReadTick(ticks, tick, spacing).Some? <==> tick % spacing == 0
  {
    var span := TICKS_PER_ARRAY * spacing;
    var q := tick / span;
    var start := ArrayStart(tick, spacing);
    assert start == q * span && start <= tick < start + span;
    assert start == (q * TICKS_PER_ARRAY) * spacing;
    ShiftMultiple(tick, q * TICKS_PER_ARRAY, spacing);
  }

  lemma ShiftMultiple(x: int, k: int, m: int)
    requires m > 0
    ensures (x - k * m) % m == 0 <==> x % m == 0
  {
    var q := x / m;
    var q' := (x - k * m) / m;
    if x % m == 0 {
      assert x - k * m == (q - k) * m;
      MultipleRemainder(q - k, m);
    }
    if (x - k * m) % m == 0 {
      assert x == (q' + k) * m;
      MultipleRemainder(q' + k, m);
    }
  }

  lemma MultipleRemainder(k: int, m: int)
    requires m > 0
    ensures (k * m) % m == 0
  {
    var r, q := (k * m) % m, (k * m) / m;
    assert (k - q) * m == r;
    assert k - q >= 1 ==> (k - q) * m >= m;
    assert k - q <= -1 ==> (k - q) * m <= -m;
  }

  // ---- What a row of the job should come to ----

  function AsPosition(d: Option<Account>): Option<PositionRead> {
    match d case Some(PositionAccount(p)) => Some(p) case _ => None
  }

  function AsPool(d: Option<Account>): Option<PoolRead> {
    match d case Some(PoolAccount(p)) => Some(p) case _ => None
  }

  datatype TickOutcome = Absent | Read(tick: TickRead) | TickThrows
  datatype RowOutcome = Captured(snapshot: FeeSnapshot) | Missing | RowThrows

  /** An account that is there but is no tick array, or an unaligned tick, throws. */
  function TickOf(d: Option<Account>, tick: int, spacing: nat): TickOutcome {
    match d
    case None => Absent
    case Some(TickArrayAccount(ticks)) =>
      (match ReadTick(ticks, tick, spacing) case Some(t) => Read(t) case None => TickThrows)
    case _ => TickThrows
  }

  function Row(p: Option<PositionRead>, first: Option<PoolRead>, again: Option<PoolRead>,
               lower: Option<Account>, upper: Option<Account>, now: int): RowOutcome
  {
    if p.None? || first.None? || again.None? || !Stable(first.value, again.value) then Missing
    else
      var r := p.value.range;
      var tl := TickOf(lower, r.lower, first.value.tickSpacing);
      var tu := TickOf(upper, r.upper, first.value.tickSpacing);
      if tl.TickThrows? || tu.TickThrows? then RowThrows
      else if tl.Absent? || tu.Absent? then Missing
      else
        var inside := Reconstruct(r, first.value, tl.tick, tu.tick);
        Captured(FeeSnapshot(now, p.value.pool, p.value.liquidity, inside.a, inside.b, r.Holds(first.value.tick)))
  }

  /** The row of one tracked position, from the three rounds of reads. */
  function RowOf(position: Key, now: int, positions: Answers, pools: Answers, recheck: Answers): RowOutcome {
    var p := AsPosition(positions(PositionAddr(position)));
    if p.None? then Missing
    else
      var pool, r := p.value.pool, p.value.range;
      var first := AsPool(pools(PoolAddr(pool)));
      if first.None? then Missing
      else
        var spacing := first.value.tickSpacing;
        Row(p, first, AsPool(recheck(PoolAddr(pool))),
            recheck(TickArrayAddr(pool, ArrayStart(r.lower, spacing))),
            recheck(TickArrayAddr(pool, ArrayStart(r.upper, spacing))), now)
  }

  datatype Report = Report(captured: seq<(Key, FeeSnapshot)>, missing: seq<Key>)

  /** Every tracked position in its list, in order; a row that throws ends the run. */
  function Rows(tracked: seq<Key>, now: int, positions: Answers, pools: Answers, recheck: Answers): Option<Report> {
    if tracked == [] then Some(Report([], []))
    else
      var k := tracked[|tracked| - 1];
      match Rows(tracked[..|tracked| - 1], now, positions, pools, recheck)
      case None => None
      case Some(rep) =>
        match RowOf(k, now, positions, pools, recheck)
        case Captured(x) => Some(Report(rep.captured + [(k, x)], rep.missing))
        case Missing => Some(Report(rep.captured, rep.missing + [k]))
        case RowThrows => None
  }

  lemma {:induction false} ThrowEndsRows(tracked: seq<Key>, n: nat, now: int, positions: Answers, pools: Answers,
                                       recheck: Answers)
    requires n <= |tracked| && Rows(tracked[..n], now, positions, pools, recheck).None?
    ensures Rows(tracked, now, positions, pools, recheck).None?
  {
    if n == |tracked| {
      assert tracked[..n] == tracked;
    } else {
      assert tracked[..|tracked| - 1][..n] == tracked[..n];
      ThrowEndsRows(tracked[..|tracked| - 1], n, now, positions, pools, recheck);
    }
  }

  /** Strictly rising places in a list. */
  ghost predicate Places(at: seq<nat>, n: nat) {
    && (forall i :: 0 <= i < |at| ==> at[i] < n)
    && (forall i, j :: 0 <= i < j < |at| ==> at[i] < at[j])
  }

  /**
   * A report lists every tracked position once, in the order of the list: under captured with its own
   * snapshot, or under missing.
   */
  lemma {:induction false} ReportIsPartition(tracked: seq<Key>, now: int, positions: Answers, pools: Answers, recheck: Answers)
    returns (at: seq<nat>, gone: seq<nat>)
    requires Rows(tracked, now, positions, pools, recheck).Some?
    ensures var rep := Rows(tracked, now, positions, pools, recheck).value;
      && |at| == |rep.captured| && |gone| == |rep.missing| && |at| + |gone| == |tracked|
      && Places(at, |tracked|) && Places(gone, |tracked|)
      && (forall i :: 0 <= i < |at| ==>
            && rep.captured[i].0 == tracked[at[i]]
            && RowOf(tracked[at[i]], now, positions, pools, recheck) == Captured(rep.captured[i].1))
      && (forall i :: 0 <= i < |gone| ==>
            && rep.missing[i] == tracked[gone[i]]
            && RowOf(tracked[gone[i]], now, positions, pools, recheck) == Missing)
  {
    hide RowOf;
    if tracked == [] {
      at, gone := [], [];
    } else {
      var n := |tracked| - 1;
      at, gone := ReportIsPartition(tracked[..n], now, positions, pools, recheck);
      assert forall k :: 0 <= k < n ==> tracked[..n][k] == tracked[k];
      if RowOf(tracked[n], now, positions, pools, recheck).Captured? {
        at := at + [n];
      } else {
        gone := gone + [n];
      }
    }
  }

  /**
   * A snapshot is of its own position and pool, stamped with the time of the run. A position is missing
   * exactly when it, its pool or the re-read of its pool does not decode, the pool moved between the two
   * reads, or one of its tick arrays is not there and neither is unreadable.
   */
  lemma RowMeans(position: Key, now: int, positions: Answers, pools: Answers, recheck: Answers)
    ensures var row, p := RowOf(position, now, positions, pools, recheck), AsPosition(positions(PositionAddr(position)));
      && (row.Captured? ==>
            p.Some? && row.snapshot.t == now && row.snapshot.pool == p.value.pool && row.snapshot.liquidity == p.value.liquidity)
      && (p.None? ==> row.Missing?)
      && (p.Some? ==>
            var first, again := AsPool(pools(PoolAddr(p.value.pool))), AsPool(recheck(PoolAddr(p.value.pool)));
            if first.None? || again.None?
               || first.value.globalA != again.value.globalA || first.value.globalB != again.value.globalB
               || first.value.tick != again.value.tick
            then row.Missing?
            else
              var l := TickOf(recheck(TickArrayAddr(p.value.pool, ArrayStart(p.value.range.lower, first.value.tickSpacing))),
                              p.value.range.lower, first.value.tickSpacing);
              var u := TickOf(recheck(TickArrayAddr(p.value.pool, ArrayStart(p.value.range.upper, first.value.tickSpacing))),
                              p.value.range.upper, first.value.tickSpacing);
              && (row.RowThrows? <==> l.TickThrows? || u.TickThrows?)
              && (row.Captured? <==> l.Read? && u.Read?))
  {
    hide ArrayStart, TickOf, Reconstruct;
  }

  // ---- The job ----

  /** One hundred accounts a request; the answers come back in the order of the addresses. */
  method ReadAccounts(answers: Answers, keys: seq<Addr>) returns (data: seq<Option<Account>>)
    ensures |data| == |keys| && forall i :: 0 <= i < |keys| ==> data[i] == answers(keys[i])
  {
    data := [];
    var at := 0;
    while at < |keys|
      invariant 0 <= at == |data| <= |keys|
      invariant forall i :: 0 <= i < |data| ==> data[i] == answers(keys[i])
    {
      var end := if at + 100 <= |keys| then at + 100 else |keys|;
      var batch := keys[at..end];
      data := data + seq(|batch|, i requires 0 <= i < |batch| => answers(batch[i]));
      at := end;
    }
  }

  method DecodePositions(data: seq<Option<Account>>) returns (ps: seq<Option<PositionRead>>)
    ensures |ps| == |data| && forall i :: 0 <= i < |data| ==> ps[i] == AsPosition(data[i])
  {
    ps := [];
    for i := 0 to |data|
      invariant |ps| == i && forall k :: 0 <= k < i ==> ps[k] == AsPosition(data[k])
    {
      ps := ps + [AsPosition(data[i])];
    }
  }

  /** The distinct pools of the positions. */
  method DistinctPools(ps: seq<Option<PositionRead>>) returns (keys: seq<Key>)
    ensures forall i :: 0 <= i < |ps| && ps[i].Some? ==> ps[i].value.pool in keys
  {
    keys := [];
    for i := 0 to |ps|
      invariant forall k :: 0 <= k < i && ps[k].Some? ==> ps[k].value.pool in keys
    {
      if ps[i].Some? && ps[i].value.pool !in keys {
        keys := keys + [ps[i].value.pool];
      }
    }
  }

  /** The first pool reads by pool key; a pool that does not decode stays out of the map. */
  method IndexPools(answers: Answers, keys: seq<Key>) returns (pools: map<Key, PoolRead>, order: seq<Key>)
    ensures forall k :: k in pools <==> k in keys && AsPool(answers(PoolAddr(k))).Some?
    ensures forall k :: k in pools ==> Some(pools[k]) == AsPool(answers(PoolAddr(k)))
    ensures forall k :: k in order <==> k in pools
  {
    var data := ReadAccounts(answers, seq(|keys|, i requires 0 <= i < |keys| => PoolAddr(keys[i])));
    pools, order := map[], [];
    for i := 0 to |keys|
      invariant forall k :: k in pools <==> k in keys[..i] && AsPool(answers(PoolAddr(k))).Some?
      invariant forall k :: k in pools ==> Some(pools[k]) == AsPool(answers(PoolAddr(k)))
      invariant forall k :: k in order <==> k in pools
    {
      assert keys[..i + 1] == keys[..i] + [keys[i]];
      var p := AsPool(data[i]);
      if p.Some? {
        pools, order := pools[keys[i] := p.value], order + [keys[i]];
      }
    }
    assert keys[..|keys|] == keys;
  }

  predicate Indexed(addrs: seq<Addr>, index: map<Addr, nat>) {
    forall a :: a in index ==> index[a] < |addrs| && addrs[index[a]] == a
  }

  predicate ArraysIndexed(p: Option<PositionRead>, pools: map<Key, PoolRead>, index: map<Addr, nat>) {
    p.Some? && p.value.pool in pools ==>
      && TickArrayAddr(p.value.pool, ArrayStart(p.value.range.lower, pools[p.value.pool].tickSpacing)) in index
      && TickArrayAddr(p.value.pool, ArrayStart(p.value.range.upper, pools[p.value.pool].tickSpacing)) in index
  }

  /** Distinct tick arrays across all positions, each with its place in the batch. */
  method IndexTickArrays(ps: seq<Option<PositionRead>>, pools: map<Key, PoolRead>)
    returns (addrs: seq<Addr>, index: map<Addr, nat>)
    ensures Indexed(addrs, index)
    ensures forall i :: 0 <= i < |ps| ==> ArraysIndexed(ps[i], pools, index)
  {
    addrs, index := [], map[];
    for i := 0 to |ps|
      invariant Indexed(addrs, index)
      invariant forall k :: 0 <= k < i ==> ArraysIndexed(ps[k], pools, index)
    {
      if ps[i].Some? && ps[i].value.pool in pools {
        var pool, spacing := ps[i].value.pool, pools[ps[i].value.pool].tickSpacing;
        addrs, index := AddArray(addrs, index, TickArrayAddr(pool, ArrayStart(ps[i].value.range.lower, spacing)));
        addrs, index := AddArray(addrs, index, TickArrayAddr(pool, ArrayStart(ps[i].value.range.upper, spacing)));
      }
    }
  }

  method AddArray(addrs: seq<Addr>, index: map<Addr, nat>, a: Addr) returns (addrs': seq<Addr>, index': map<Addr, nat>)
    requires Indexed(addrs, index)
    ensures Indexed(addrs', index') && index'.Keys == index.Keys + {a}
  {
    addrs', index' := addrs, index;
    if a !in index {
      index' := index[a := |addrs|];
      addrs' := addrs + [a];
    }
  }

  /** The pools whose accumulators and tick did not move between the two reads. */
  method StablePools(pools: map<Key, PoolRead>, order: seq<Key>, answers: Answers, data: seq<Option<Account>>)
    returns (stable: set<Key>)
    requires |data| == |order| && forall i :: 0 <= i < |order| ==> data[i] == answers(PoolAddr(order[i]))
    requires forall k :: k in order <==> k in pools
    ensures forall k :: k in stable <==>
      k in pools && AsPool(answers(PoolAddr(k))).Some? && Stable(pools[k], AsPool(answers(PoolAddr(k))).value)
  {
    stable := {};
    for i := 0 to |order|
      invariant forall k :: k in stable <==>
        k in order[..i] && k in pools && AsPool(answers(PoolAddr(k))).Some?
        && Stable(pools[k], AsPool(answers(PoolAddr(k))).value)
    {
      assert order[..i + 1] == order[..i] + [order[i]];
      var again := AsPool(data[i]);
      if again.Some? && Stable(pools[order[i]], again.value) {
        stable := stable + {order[i]};
      }
    }
    assert order[..|order|] == order;
  }

  /**
   * The whole job: every tracked position is captured or reported missing exactly as its own accounts
   * say, whatever else is in the batches.
   */
  method CapturePositionSnapshots(tracked: seq<Key>, now: int, positions: Answers, poolAnswers: Answers, recheck: Answers)
    returns (r: Option<Report>)
    ensures r == Rows(tracked, now, positions, poolAnswers, recheck)
  {
    hide Row, ArrayStart;
    var posData := ReadAccounts(positions, seq(|tracked|, i requires 0 <= i < |tracked| => PositionAddr(tracked[i])));
    var ps := DecodePositions(posData);
    var poolKeys := DistinctPools(ps);
    var pools, order := IndexPools(poolAnswers, poolKeys);
    var addrs, index := IndexTickArrays(ps, pools);
    var keys := addrs + seq(|order|, i requires 0 <= i < |order| => PoolAddr(order[i]));
    var data := ReadAccounts(recheck, keys);
    var stable := StablePools(pools, order, recheck, data[|addrs|..]);
    var captured, missing := [], [];
    for i := 0 to |tracked|
      invariant Rows(tracked[..i], now, positions, poolAnswers, recheck) == Some(Report(captured, missing))
    {
      assert tracked[..i + 1][..i] == tracked[..i];
      var row := CaptureRow(ps[i], pools, stable, data, index, now);
      assert row == RowOf(tracked[i], now, positions, poolAnswers, recheck) by {
        RowMatches(tracked[i], ps[i], pools, stable, addrs, keys, data, index, now, positions, poolAnswers, recheck);
      }
      match row {
        case Captured(x) => captured := captured + [(tracked[i], x)];
        case Missing => missing := missing + [tracked[i]];
        case RowThrows =>
          ThrowEndsRows(tracked, i + 1, now, positions, poolAnswers, recheck);
          return None;
      }
    }
    assert tracked[..|tracked|] == tracked;
    return Some(Report(captured, missing));
  }

  /** One row, from the indexes of the batch. */
  function CaptureRow(p: Option<PositionRead>, pools: map<Key, PoolRead>, stable: set<Key>,
                      data: seq<Option<Account>>, index: map<Addr, nat>, now: int): RowOutcome
    requires ArraysIndexed(p, pools, index)
    requires forall a :: a in index ==> index[a] < |data|
    requires forall k :: k in stable ==> k in pools
  {
    if p.None? || p.value.pool !in pools || p.value.pool !in stable then Missing
    else
      var pool, r := pools[p.value.pool], p.value.range;
      var lower := data[index[TickArrayAddr(p.value.pool, ArrayStart(r.lower, pool.tickSpacing))]];
      var upper := data[index[TickArrayAddr(p.value.pool, ArrayStart(r.upper, pool.tickSpacing))]];
      Row(p, Some(pool), Some(pool), lower, upper, now)
  }

  lemma RowMatches(position: Key, p: Option<PositionRead>, pools: map<Key, PoolRead>, stable: set<Key>,
                   addrs: seq<Addr>, keys: seq<Addr>, data: seq<Option<Account>>, index: map<Addr, nat>, now: int,
                   positions: Answers, poolAnswers: Answers, recheck: Answers)
    requires p == AsPosition(positions(PositionAddr(position)))
    requires p.Some? ==> (p.value.pool in pools <==> AsPool(poolAnswers(PoolAddr(p.value.pool))).Some?)
    requires forall k :: k in pools ==> Some(pools[k]) == AsPool(poolAnswers(PoolAddr(k)))
    requires Indexed(addrs, index) && addrs <= keys && ArraysIndexed(p, pools, index)
    requires |data| == |keys| && forall i :: 0 <= i < |keys| ==> data[i] == recheck(keys[i])
    requires forall k :: k in stable <==>
      k in pools && AsPool(recheck(PoolAddr(k))).Some? && Stable(pools[k], AsPool(recheck(PoolAddr(k))).value)
    ensures CaptureRow(p, pools, stable, data, index, now) == RowOf(position, now, positions, poolAnswers, recheck)
  {
    hide ArrayStart, TickOf, Reconstruct;
    if p.Some? && p.value.pool in pools {
      var pool, r := p.value.pool, p.value.range;
      var l := TickArrayAddr(pool, ArrayStart(r.lower, pools[pool].tickSpacing));
      var u := TickArrayAddr(pool, ArrayStart(r.upper, pools[pool].tickSpacing));
      assert data[index[l]] == recheck(keys[index[l]]) && keys[index[l]] == addrs[index[l]];
      assert data[index[u]] == recheck(keys[index[u]]) && keys[index[u]] == addrs[index[u]];
    }
  }

  // ---- What a captured snapshot means ----

  /**
   * A captured position carries the inside growth of the single instant of its first pool read, when its
   * tick arrays and the re-read come from the same stretch of time as that read.
   */
  lemma CapturedIsOneInstant(position: Key, now: int, positions: Answers, poolAnswers: Answers, recheck: Answers,
                             p: PositionRead, first: PoolRead, again: PoolRead, lower: TickRead, upper: TickRead,
                             instants: seq<Pool>, swaps: seq<seq<Step>>, jl: nat, ju: nat)
    requires Timeline(p.range, instants, swaps) && CrossingsPay(p.range, instants, swaps)
    requires GrownA(swaps) < U128 && GrownB(swaps) < U128
    requires ReadFrom(instants, first, lower, upper, again, jl, ju)
    requires AsPosition(positions(PositionAddr(position))) == Some(p)
    requires AsPool(poolAnswers(PoolAddr(p.pool))) == Some(first)
    requires AsPool(recheck(PoolAddr(p.pool))) == Some(again)
    requires TickOf(recheck(TickArrayAddr(p.pool, ArrayStart(p.range.lower, first.tickSpacing))),
                    p.range.lower, first.tickSpacing) == Read(lower)
    requires TickOf(recheck(TickArrayAddr(p.pool, ArrayStart(p.range.upper, first.tickSpacing))),
                    p.range.upper, first.tickSpacing) == Read(upper)
    ensures var row := RowOf(position, now, positions, poolAnswers, recheck);
      && (row.Captured? <==> Stable(first, again))
      && (row.Captured? ==>
            && InsidePair(row.snapshot.insideA, row.snapshot.insideB) == InsideAt(p.range, instants[0])
            && row.snapshot.inRange == p.range.Holds(instants[0].tick)
            && row.snapshot.liquidity == p.liquidity)
  {
    if Stable(first, again) {
      GateIsSound(p.range, instants, swaps, first, lower, upper, again, jl, ju);
    }
  }
}
