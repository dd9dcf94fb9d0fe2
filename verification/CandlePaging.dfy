/** Forward pagination of candles: what a page at a time collects against what one request would. */
module CandlePaging {
  import opened Outcomes

  const MAX_PAGES: nat := 200

  datatype Candle = Candle(t: int, data: string)

  /** What the fetcher answers on a page, from a cursor to the end of the window. */
  type Fetcher = (nat, int) -> seq<Candle>

  // -------------------------------------------------------------------------
  // The pages as functions
  // -------------------------------------------------------------------------

  /** Map.set for every received candle inside the window. */
  function Into(items: seq<Candle>, timeFrom: int, timeTo: int, byTime: map<int, Candle>): map<int, Candle> {
    if items == [] then byTime
    else
      var rest, c := Into(items[..|items| - 1], timeFrom, timeTo, byTime), items[|items| - 1];
      if timeFrom <= c.t <= timeTo then rest[c.t := c] else rest
  }

  function MaxTime(items: seq<Candle>, cursor: int): int {
    if items == [] then cursor
    else
      var rest, t := MaxTime(items[..|items| - 1], cursor), items[|items| - 1].t;
      if t > rest then t else rest
  }

  /** Everything the paging loop collects from a page on. */
  ghost function Collect(fetch: Fetcher, step: nat, timeFrom: int, timeTo: int, page: nat, cursor: int,
                         byTime: map<int, Candle>)
    : map<int, Candle>
    requires page <= MAX_PAGES
    decreases MAX_PAGES - page
  {
    if page == MAX_PAGES || fetch(page, cursor) == [] then byTime
    else
      var items := fetch(page, cursor);
      var maxT := MaxTime(items, cursor);
      var collected := Into(items, timeFrom, timeTo, byTime);
      if maxT + step > timeTo || maxT < cursor + step then collected
      else Collect(fetch, step, timeFrom, timeTo, page + 1, maxT + step, collected)
  }

  // -------------------------------------------------------------------------
  // Sorting
  // -------------------------------------------------------------------------

  ghost predicate Ascending(s: seq<Candle>) {
    forall i, k :: 0 <= i < k < |s| ==> s[i].t < s[k].t
  }

  ghost predicate Keyed(byTime: map<int, Candle>) {
    forall t :: t in byTime ==> byTime[t].t == t
  }

  /** The values of the map in order of time. */
  ghost predicate IsSorting(s: seq<Candle>, byTime: map<int, Candle>) {
    && Ascending(s)
    && (forall i :: 0 <= i < |s| ==> s[i].t in byTime && byTime[s[i].t] == s[i])
    && forall t :: t in byTime ==> byTime[t] in s
  }

  lemma {:induction false} LeastTime(times: set<int>) returns (t: int)
    requires times != {}
    ensures t in times && forall u :: u in times ==> t <= u
    decreases |times|
  {
    if forall u :: u !in times {
      assert false;
    }
    t :| t in times;
    if times != {t} {
      var rest := times - {t};
      assert times == rest + {t};
      var least := LeastTime(rest);
      t := if t <= least then t else least;
    }
  }

  method SortByTime(byTime: map<int, Candle>) returns (s: seq<Candle>)
    requires Keyed(byTime)
    ensures IsSorting(s, byTime)
  {
    s := [];
    var left := byTime.Keys;
    while left != {}
      invariant left <= byTime.Keys && Ascending(s)
      invariant forall i :: 0 <= i < |s| ==> s[i].t in byTime && byTime[s[i].t] == s[i]
      invariant forall t :: t in byTime && t !in left ==> byTime[t] in s
      invariant forall i, t :: 0 <= i < |s| && t in left ==> s[i].t < t
      decreases left
    {
      ghost var least := LeastTime(left);
      var t :| t in left && forall u :: u in left ==> t <= u;
      s := s + [byTime[t]];
      left := left - {t};
    }
  }

  /** Two ascending sequences with the same candles are the same sequence. */
  lemma {:induction false} AscendingUnique(r: seq<Candle>, s: seq<Candle>)
    requires Ascending(r) && Ascending(s) && forall c :: c in r <==> c in s
    ensures r == s
  {
    HeadIn(r);
    HeadIn(s);
    if r != [] {
      assert r[0] in s && s != [] && s[0] in r;
      assert r[0] == s[0] by { SameHead(r, s); }
      forall c ensures c in r[1..] <==> c in s[1..] {
        assert c in r[1..] <==> c in r && c.t > r[0].t by { Tail(r, c); }
        assert c in s[1..] <==> c in s && c.t > s[0].t by { Tail(s, c); }
      }
      AscendingUnique(r[1..], s[1..]);
      assert r == [r[0]] + r[1..] && s == [s[0]] + s[1..];
    }
  }

  lemma HeadIn(s: seq<Candle>)
    ensures s != [] ==> s[0] in s
  {
  }

  lemma SameHead(r: seq<Candle>, s: seq<Candle>)
    requires Ascending(r) && Ascending(s) && r != [] && s != [] && r[0] in s && s[0] in r
    ensures r[0] == s[0]
  {
    var i :| 0 <= i < |s| && s[i] == r[0];
    var k :| 0 <= k < |r| && r[k] == s[0];
  }

  lemma Tail(s: seq<Candle>, c: Candle)
    requires Ascending(s) && s != []
    ensures c in s[1..] <==> c in s && c.t > s[0].t
  {
    if c in s && c.t > s[0].t {
      var i :| 0 <= i < |s| && s[i] == c;
      assert s[1..][i - 1] == c;
    }
    if c in s[1..] {
      var i :| 0 <= i < |s| - 1 && s[1..][i] == c;
      assert s[i + 1] == c;
    }
  }

  // -------------------------------------------------------------------------
  // The paging loop
  // -------------------------------------------------------------------------

  lemma {:induction false} IntoKeyed(items: seq<Candle>, timeFrom: int, timeTo: int, byTime: map<int, Candle>)
    requires Keyed(byTime) && forall t :: t in byTime ==> timeFrom <= t <= timeTo
    ensures Keyed(Into(items, timeFrom, timeTo, byTime))
    ensures forall t :: t in Into(items, timeFrom, timeTo, byTime) ==> timeFrom <= t <= timeTo
  {
    if items != [] {
      IntoKeyed(items[..|items| - 1], timeFrom, timeTo, byTime);
    }
  }

  datatype PagingError = EmptyWindow

  /**
   * Against any fetcher at all: at most 200 requests, and the candles returned are those the pages
   * collected, in the window, sorted by time without repeats.
   */
  method FetchOhlcvPaged(fetch: Fetcher, step: nat, timeFrom: int, timeTo: int)
    returns (r: Result<seq<Candle>, PagingError>, requests: nat)
    ensures r.Err? <==> timeTo <= timeFrom
    ensures requests <= 200
    ensures r.Ok? ==> IsSorting(r.value, Collect(fetch, step, timeFrom, timeTo, 0, timeFrom, map[]))
    ensures r.Ok? ==> forall i :: 0 <= i < |r.value| ==> timeFrom <= r.value[i].t <= timeTo
  {
    requests := 0;
    if timeTo <= timeFrom {
      r := Err(EmptyWindow);
      return;
    }
    var byTime: map<int, Candle> := map[];
    var cursor := timeFrom;
    ghost var all := Collect(fetch, step, timeFrom, timeTo, 0, timeFrom, map[]);
    for page := 0 to MAX_PAGES
      invariant requests == page
      invariant Keyed(byTime) && forall t :: t in byTime ==> timeFrom <= t <= timeTo
      invariant Collect(fetch, step, timeFrom, timeTo, page, cursor, byTime) == all
    {
      requests := requests + 1;
      var items := fetch(page, cursor);
      if |items| == 0 {
        break;
      }
      var maxT := cursor;
      ghost var before := byTime;
      for n := 0 to |items|
        invariant byTime == Into(items[..n], timeFrom, timeTo, before)
        invariant maxT == MaxTime(items[..n], cursor)
      {
        assert items[..n + 1][..n] == items[..n];
        var c := items[n];
        if c.t >= timeFrom && c.t <= timeTo {
          byTime := byTime[c.t := c];
        }
        if c.t > maxT {
          maxT := c.t;
        }
      }
      assert items[..|items|] == items;
      IntoKeyed(items, timeFrom, timeTo, before);
      if maxT + step > timeTo {
        break;
      }
      if maxT < cursor + step {
        break;
      }
      cursor := maxT + step;
    }
    assert byTime == all;
    var candles := SortByTime(byTime);
    r := Ok(candles);
  }

  // -------------------------------------------------------------------------
  // A provider that returns the earliest candles of each request
  // -------------------------------------------------------------------------

  /** The candles of a series inside a window: what one unbounded request would return. */
  ghost function Window(series: seq<Candle>, from: int, to: int): seq<Candle> {
    if series == [] then []
    else
      var rest := Window(series[1..], from, to);
      if from <= series[0].t <= to then [series[0]] + rest else rest
  }

  ghost predicate Spaced(series: seq<Candle>, step: nat) {
    forall i, k :: 0 <= i < k < |series| ==> series[i].t + step <= series[k].t
  }

  ghost function Earliest(s: seq<Candle>, cap: nat): seq<Candle> {
    if |s| <= cap then s else s[..cap]
  }

  ghost predicate Provides(fetch: Fetcher, series: seq<Candle>, cap: nat, timeTo: int) {
    forall page, cursor :: fetch(page, cursor) == Earliest(Window(series, cursor, timeTo), cap)
  }

  lemma {:induction false} WindowSound(series: seq<Candle>, from: int, to: int, step: nat)
    requires Spaced(series, step)
    ensures Spaced(Window(series, from, to), step)
    ensures forall i :: 0 <= i < |Window(series, from, to)| ==>
              from <= Window(series, from, to)[i].t <= to && Window(series, from, to)[i] in series
  {
    if series != [] {
      WindowSound(series[1..], from, to, step);
    }
  }

  lemma {:induction false} WindowEmpty(series: seq<Candle>, from: int, to: int)
    requires forall i :: 0 <= i < |series| ==> series[i].t < from || series[i].t > to
    ensures Window(series, from, to) == []
  {
    if series != [] {
      WindowEmpty(series[1..], from, to);
    }
  }

  /** A window splits at any time inside it. */
  lemma {:induction false} WindowSplits(series: seq<Candle>, from: int, cut: int, to: int, step: nat)
    requires Spaced(series, step) && from <= cut <= to + 1
    ensures Window(series, from, to) == Window(series, from, cut - 1) + Window(series, cut, to)
  {
    if series != [] {
      WindowSplits(series[1..], from, cut, to, step);
      if series[0].t >= cut {
        WindowEmpty(series, from, cut - 1);
        WindowEmpty(series[1..], from, cut - 1);
      }
    }
  }

  lemma {:induction false} IntoAppend(a: seq<Candle>, b: seq<Candle>, timeFrom: int, timeTo: int, byTime: map<int, Candle>)
    ensures Into(a + b, timeFrom, timeTo, byTime) == Into(b, timeFrom, timeTo, Into(a, timeFrom, timeTo, byTime))
  {
    if b == [] {
      assert a + b == a;
    } else {
      assert (a + b)[..|a + b| - 1] == a + b[..|b| - 1];
      IntoAppend(a, b[..|b| - 1], timeFrom, timeTo, byTime);
    }
  }

  lemma {:induction false} MaxOfSpaced(items: seq<Candle>, cursor: int, step: nat)
    requires items != [] && Spaced(items, step) && forall i :: 0 <= i < |items| ==> cursor <= items[i].t
    ensures MaxTime(items, cursor) == items[|items| - 1].t
  {
    if |items| > 1 {
      MaxOfSpaced(items[..|items| - 1], cursor, step);
    } else {
      assert items[..0] == [];
    }
  }

  /** Cut past the first candles of a spaced sequence, the part before the cut is those candles. */
  lemma CutAfter(w: seq<Candle>, a: seq<Candle>, b: seq<Candle>, cap: nat, step: nat)
    requires 0 < step && 0 < cap <= |w| && Spaced(w, step) && w == a + b
    requires forall i :: 0 <= i < |a| ==> a[i].t < w[cap - 1].t + step
    requires forall i :: 0 <= i < |b| ==> b[i].t >= w[cap - 1].t + step
    ensures a == w[..cap] && |b| == |w| - cap
  {
    Which(a, b, cap - 1);
    if cap < |w| {
      Which(a, b, cap);
    }
  }

  lemma Which(a: seq<Candle>, b: seq<Candle>, k: nat)
    requires k < |a| + |b|
    ensures (k < |a| && (a + b)[k] == a[k]) || (k >= |a| && (a + b)[k] == b[k - |a|])
  {
  }

  /** A full page that is not the last: the loop goes on, past exactly the candles it received. */
  lemma FullPage(series: seq<Candle>, cap: nat, cursor: int, timeTo: int, step: nat)
    requires 0 < step && 2 <= cap && Spaced(series, step) && cap < |Window(series, cursor, timeTo)|
    ensures var page := Earliest(Window(series, cursor, timeTo), cap);
            var next := MaxTime(page, cursor) + step;
            && cursor + step + step <= next <= timeTo
            && Window(series, next, timeTo) == Window(series, cursor, timeTo)[cap..]
  {
    hide Window, MaxTime;
    var w := Window(series, cursor, timeTo);
    WindowSound(series, cursor, timeTo, step);
    MaxOfSpaced(w[..cap], cursor, step);
    var next := w[cap - 1].t + step;
    assert next <= w[cap].t <= timeTo && cursor + step <= w[0].t + step <= w[cap - 1].t;
    WindowSplits(series, cursor, next, timeTo, step);
    WindowSound(series, cursor, next - 1, step);
    WindowSound(series, next, timeTo, step);
    CutAfter(w, Window(series, cursor, next - 1), Window(series, next, timeTo), cap, step);
  }

  /** From any page on the loop collects the earliest candles left, as many as its remaining pages hold. */
  lemma {:induction false} CollectsPages(fetch: Fetcher, series: seq<Candle>, cap: nat, step: nat,
                                         timeFrom: int, timeTo: int, page: nat, cursor: int, before: map<int, Candle>)
    requires 0 < step && 2 <= cap && Spaced(series, step) && Provides(fetch, series, cap, timeTo) && page <= MAX_PAGES
    ensures Collect(fetch, step, timeFrom, timeTo, page, cursor, before)
         == Into(Earliest(Window(series, cursor, timeTo), (MAX_PAGES - page) * cap), timeFrom, timeTo, before)
    decreases MAX_PAGES - page
  {
    hide Window, Into, MaxTime, Spaced;
    var w := Window(series, cursor, timeTo);
    PagesLeft(page, cap);
    if page == MAX_PAGES || |w| == 0 {
      NothingCollected(fetch, series, cap, step, timeFrom, timeTo, page, cursor, before);
    } else if |w| <= cap {
      LastPage(fetch, series, cap, step, timeFrom, timeTo, page, cursor, before);
    } else {
      FullPage(series, cap, cursor, timeTo, step);
      var items, rest := fetch(page, cursor), (MAX_PAGES - page - 1) * cap;
      var next := MaxTime(items, cursor) + step;
      CollectsPages(fetch, series, cap, step, timeFrom, timeTo, page + 1, next, Into(items, timeFrom, timeTo, before));
      assert Earliest(w, rest + cap) == items + Earliest(w[cap..], rest);
      IntoAppend(items, Earliest(w[cap..], rest), timeFrom, timeTo, before);
    }
  }

  lemma PagesLeft(page: nat, cap: nat)
    requires page <= MAX_PAGES
    ensures page < MAX_PAGES ==> (MAX_PAGES - page) * cap == (MAX_PAGES - page - 1) * cap + cap >= cap
  {
  }

  lemma NothingCollected(fetch: Fetcher, series: seq<Candle>, cap: nat, step: nat,
                         timeFrom: int, timeTo: int, page: nat, cursor: int, before: map<int, Candle>)
    requires page <= MAX_PAGES && Provides(fetch, series, cap, timeTo)
    requires page == MAX_PAGES || Window(series, cursor, timeTo) == []
    ensures Collect(fetch, step, timeFrom, timeTo, page, cursor, before)
         == Into(Earliest(Window(series, cursor, timeTo), (MAX_PAGES - page) * cap), timeFrom, timeTo, before)
  {
    if page == MAX_PAGES {
      PagesUsedUp(fetch, series, cap, step, timeFrom, timeTo, cursor, before);
    } else {
      hide Window, Collect, Into;
      PagesLeft(page, cap);
      NoPage(fetch, series, cap, step, timeFrom, timeTo, page, cursor, before);
      assert Earliest(Window(series, cursor, timeTo), (MAX_PAGES - page) * cap) == [];
    }
  }

  lemma PagesUsedUp(fetch: Fetcher, series: seq<Candle>, cap: nat, step: nat,
                    timeFrom: int, timeTo: int, cursor: int, before: map<int, Candle>)
    ensures Collect(fetch, step, timeFrom, timeTo, MAX_PAGES, cursor, before) == before
    ensures Into(Earliest(Window(series, cursor, timeTo), (MAX_PAGES - MAX_PAGES) * cap), timeFrom, timeTo, before) == before
  {
    hide Window, MaxTime;
    assert (MAX_PAGES - MAX_PAGES) * cap == 0;
    assert Earliest(Window(series, cursor, timeTo), 0) == [];
  }

  /** An empty page ends the loop with what it has. */
  lemma NoPage(fetch: Fetcher, series: seq<Candle>, cap: nat, step: nat,
               timeFrom: int, timeTo: int, page: nat, cursor: int, before: map<int, Candle>)
    requires page <= MAX_PAGES && Provides(fetch, series, cap, timeTo) && Window(series, cursor, timeTo) == []
    ensures Collect(fetch, step, timeFrom, timeTo, page, cursor, before) == before == Into([], timeFrom, timeTo, before)
  {
    hide Window, MaxTime;
    assert fetch(page, cursor) == [];
  }

  /** A page that holds all that is left ends the loop at once or with the empty page after it. */
  lemma LastPage(fetch: Fetcher, series: seq<Candle>, cap: nat, step: nat,
                 timeFrom: int, timeTo: int, page: nat, cursor: int, before: map<int, Candle>)
    requires 0 < step && 2 <= cap && Spaced(series, step) && Provides(fetch, series, cap, timeTo)
    requires page < MAX_PAGES && 0 < |Window(series, cursor, timeTo)| <= cap
    ensures Collect(fetch, step, timeFrom, timeTo, page, cursor, before)
         == Into(Window(series, cursor, timeTo), timeFrom, timeTo, before)
  {
    hide Window, Into, MaxTime, Spaced;
    var w := Window(series, cursor, timeTo);
    assert fetch(page, cursor) == w;
    WindowSound(series, cursor, timeTo, step);
    MaxOfSpaced(w, cursor, step);
    var next := MaxTime(w, cursor) + step;
    if next <= timeTo && MaxTime(w, cursor) >= cursor + step {
      NothingAfter(series, cursor, next, timeTo, step);
      NoPage(fetch, series, cap, step, timeFrom, timeTo, page + 1, next, Into(w, timeFrom, timeTo, before));
    }
  }

  lemma NothingAfter(series: seq<Candle>, cursor: int, next: int, timeTo: int, step: nat)
    requires 0 < step && Spaced(series, step) && cursor <= next <= timeTo && Window(series, cursor, timeTo) != []
    requires var w := Window(series, cursor, timeTo); next == w[|w| - 1].t + step
    ensures Window(series, next, timeTo) == []
  {
    hide Window;
    var w := Window(series, cursor, timeTo);
    WindowSound(series, cursor, timeTo, step);
    WindowSplits(series, cursor, next, timeTo, step);
    WindowSound(series, cursor, next - 1, step);
    WindowSound(series, next, timeTo, step);
    CutAfter(w, Window(series, cursor, next - 1), Window(series, next, timeTo), |w|, step);
  }

  lemma {:induction false} IntoSorts(s: seq<Candle>, timeFrom: int, timeTo: int)
    requires Ascending(s) && forall i :: 0 <= i < |s| ==> timeFrom <= s[i].t <= timeTo
    ensures IsSorting(s, Into(s, timeFrom, timeTo, map[]))
  {
    if s != [] {
      var front, c := s[..|s| - 1], s[|s| - 1];
      IntoSorts(front, timeFrom, timeTo);
      assert s == front + [c];
      var m := Into(front, timeFrom, timeTo, map[]);
      var m' := m[c.t := c];
      forall t | t in m' ensures m'[t] in s {
        if t != c.t {
          assert m[t] in front;
        }
      }
    }
  }

  lemma SortingMembers(s: seq<Candle>, byTime: map<int, Candle>, c: Candle)
    requires IsSorting(s, byTime)
    ensures c in s <==> c.t in byTime && byTime[c.t] == c
  {
  }

  /**
   * Against a provider that answers every request with its earliest candles, at least two a page,
   * paging returns the earliest candles of the window, as many as 200 pages hold.
   */
  lemma PagingReturnsEarliest(fetch: Fetcher, series: seq<Candle>, cap: nat, step: nat, timeFrom: int, timeTo: int,
                              candles: seq<Candle>)
    requires 0 < step && 2 <= cap && Spaced(series, step) && Provides(fetch, series, cap, timeTo)
    requires IsSorting(candles, Collect(fetch, step, timeFrom, timeTo, 0, timeFrom, map[]))
    ensures candles == Earliest(Window(series, timeFrom, timeTo), 200 * cap)
  {
    var w := Earliest(Window(series, timeFrom, timeTo), MAX_PAGES * cap);
    WindowSound(series, timeFrom, timeTo, step);
    CollectsPages(fetch, series, cap, step, timeFrom, timeTo, 0, timeFrom, map[]);
    IntoSorts(w, timeFrom, timeTo);
    var m := Into(w, timeFrom, timeTo, map[]);
    forall c ensures c in candles <==> c in w {
      SortingMembers(candles, m, c);
      SortingMembers(w, m, c);
    }
    AscendingUnique(candles, w);
  }

  /** So it returns exactly what one unbounded request would if and only if the window fits in 200 pages. */
  lemma PagingIsComplete(fetch: Fetcher, series: seq<Candle>, cap: nat, step: nat, timeFrom: int, timeTo: int,
                         candles: seq<Candle>)
    requires 0 < step && 2 <= cap && Spaced(series, step) && Provides(fetch, series, cap, timeTo)
    requires IsSorting(candles, Collect(fetch, step, timeFrom, timeTo, 0, timeFrom, map[]))
    ensures candles == Window(series, timeFrom, timeTo) <==> |Window(series, timeFrom, timeTo)| <= 200 * cap
  {
    hide Window, Collect, IsSorting;
    PagingReturnsEarliest(fetch, series, cap, step, timeFrom, timeTo, candles);
  }

  /** With one candle a page the loop mistakes the first page for the last. */
  lemma OneCandlePagesStopShort(fetch: Fetcher, first: Candle, second: Candle, step: nat)
    requires 0 < step && second.t == first.t + step
    requires Provides(fetch, [first, second], 1, second.t + step)
    ensures second.t !in Collect(fetch, step, first.t, second.t + step, 0, first.t, map[])
  {
    var series, to := [first, second], second.t + step;
    assert series[1..] == [second] && series[1..][1..] == [];
    assert Window(series[1..][1..], first.t, to) == [];
    assert Window(series[1..], first.t, to) == [second];
    assert Window(series, first.t, to) == [first, second];
    assert fetch(0, first.t) == Earliest(Window(series, first.t, to), 1) == [first];
    assert [first][..0] == [];
    assert MaxTime([first], first.t) == first.t;
    assert Into([first], first.t, to, map[]) == map[first.t := first];
  }
}
