/**
 * hedge-ledger.ts: the promise chain through which every access to the ledger goes, and the log it
 * writes to disk. A call appends a task to the chain; its callback starts when the task before it has
 * ended, and may in between await anything, another task of the chain included.
 */
module LedgerMutex {
  import opened HedgeTypes

  datatype Task = Queued | Running | Awaiting(task: nat) | Ended

  /** The chain, the ledger's events, and what is on disk (persistedCount is its length). */
  datatype Chain = Chain(tasks: seq<Task>, events: seq<Event>, disk: seq<Event>)

  datatype Move =
    | Enqueue                       // withHedge is called, by anyone
    | Start(i: nat)                 // the promise the task hangs on has settled
    | Commit(i: nat, e: Event)      // the callback changes the ledger
    | Await(i: nat, j: nat)         // the callback awaits the promise of a task
    | Resume(i: nat)                // which has settled
    | End(i: nat)                   // the callback returns or throws; the finally clause persists

  predicate IsOpen(t: Task) { t.Running? || t.Awaiting? }

  /** The events beyond the persisted count are appended. */
  function Persisted(c: Chain): seq<Event> {
    if |c.events| <= |c.disk| then c.disk else c.disk + c.events[|c.disk|..]
  }

  ghost predicate Enabled(c: Chain, m: Move) {
    match m
    case Enqueue => true
    case Start(i) => i < |c.tasks| && c.tasks[i].Queued? && (i == 0 || c.tasks[i - 1].Ended?)
    case Commit(i, _) => i < |c.tasks| && c.tasks[i].Running?
    case Await(i, j) => i < |c.tasks| && j < |c.tasks| && c.tasks[i].Running?
    case Resume(i) => i < |c.tasks| && c.tasks[i].Awaiting? && c.tasks[i].task < |c.tasks| && c.tasks[c.tasks[i].task].Ended?
    case End(i) => i < |c.tasks| && c.tasks[i].Running?
  }

  ghost function Next(c: Chain, m: Move): Chain
    requires Enabled(c, m)
  {
    match m
    case Enqueue => c.(tasks := c.tasks + [Queued])
    case Start(i) => c.(tasks := c.tasks[i := Running])
    case Commit(_, e) => c.(events := c.events + [e])
    case Await(i, j) => c.(tasks := c.tasks[i := Awaiting(j)])
    case Resume(i) => c.(tasks := c.tasks[i := Running])
    case End(i) => c.(tasks := c.tasks[i := Ended], disk := Persisted(c))
  }

  ghost predicate Leads(c: Chain, ms: seq<Move>, c': Chain)
    decreases |ms|
  {
    if ms == [] then c' == c
    else Enabled(c, ms[0]) && Leads(Next(c, ms[0]), ms[1..], c')
  }

  /** A process that has just loaded its log, or opened a new one. */
  predicate Fresh(c: Chain) { c.tasks == [] && c.disk == c.events }

  // ---- One at a time, in the order of the calls ----

  /** The first n tasks have ended, those after the next are queued; the disk lags only while that one is open. */
  ghost predicate Inv(c: Chain, n: nat) {
    && n <= |c.tasks|
    && (forall k :: 0 <= k < n ==> c.tasks[k].Ended?)
    && (n < |c.tasks| ==> !c.tasks[n].Ended? && (c.tasks[n].Awaiting? ==> c.tasks[n].task < |c.tasks|))
    && (forall k :: n < k < |c.tasks| ==> c.tasks[k].Queued?)
    && |c.disk| <= |c.events| && c.events[..|c.disk|] == c.disk
    && ((n < |c.tasks| && IsOpen(c.tasks[n])) || c.disk == c.events)
  }

  lemma InvStep(c: Chain, n: nat, m: Move)
    requires Inv(c, n) && Enabled(c, m)
    ensures Inv(Next(c, m), if m.End? then n + 1 else n)
    ensures m.Commit? || m.Await? || m.Resume? || m.End? ==> m.i == n
    ensures m.Start? ==> m.i == n
  {
    assert c.events == c.disk + c.events[|c.disk|..];
  }

  function Ends(ms: seq<Move>): nat {
    if ms == [] then 0 else (if ms[0].End? then 1 else 0) + Ends(ms[1..])
  }

  lemma {:induction false} InvRun(c: Chain, n: nat, ms: seq<Move>, c': Chain)
    requires Inv(c, n) && Leads(c, ms, c')
    ensures Inv(c', n + Ends(ms))
    decreases |ms|
  {
    hide Inv, Enabled, Next;
    if ms != [] {
      InvStep(c, n, ms[0]);
      InvRun(Next(c, ms[0]), n + (if ms[0].End? then 1 else 0), ms[1..], c');
    }
  }

  /**
   * Whatever the calls and however their callbacks interleave: at most one callback is open at a time, the
   * calls before it have ended and those after it have not begun, the disk always holds a prefix of the
   * ledger's events, and the whole of them whenever no callback is open.
   */
  lemma OneWriterInOrder(c: Chain, ms: seq<Move>, c': Chain)
    requires Fresh(c) && Leads(c, ms, c')
    ensures forall i, k :: 0 <= k < i < |c'.tasks| && !c'.tasks[i].Queued? ==> c'.tasks[k].Ended?
    ensures forall i, k :: 0 <= i < k < |c'.tasks| && IsOpen(c'.tasks[i]) ==> c'.tasks[k].Queued?
    ensures c'.disk <= c'.events
    ensures (forall i :: 0 <= i < |c'.tasks| ==> !IsOpen(c'.tasks[i])) ==> c'.disk == c'.events
  {
    InvRun(c, 0, ms, c');
  }

  // ---- When the chain comes to a halt ----

  /** A callback awaits its own task or one behind it. */
  predicate SelfBlocked(c: Chain) {
    exists i :: 0 <= i < |c.tasks| && c.tasks[i].Awaiting? && i <= c.tasks[i].task
  }

  lemma BlockedStep(c: Chain, n: nat, m: Move)
    requires Inv(c, n) && n < |c.tasks| && c.tasks[n].Awaiting? && n <= c.tasks[n].task
    requires Enabled(c, m)
    ensures m.Enqueue?
  {
    InvStep(c, n, m);
  }

  lemma {:induction false} BlockedRun(c: Chain, n: nat, ms: seq<Move>, c': Chain)
    requires Inv(c, n) && n < |c.tasks| && c.tasks[n].Awaiting? && n <= c.tasks[n].task && Leads(c, ms, c')
    ensures Ends(ms) == 0 && c'.events == c.events && c'.disk == c.disk
    ensures forall k :: 0 <= k < |ms| ==> ms[k].Enqueue?
    decreases |ms|
  {
    if ms != [] {
      BlockedStep(c, n, ms[0]);
      InvStep(c, n, ms[0]);
      BlockedRun(Next(c, ms[0]), n, ms[1..], c');
      forall k | 0 <= k < |ms| ensures ms[k].Enqueue? {
        if k > 0 {
          assert ms[k] == ms[1..][k - 1];
        }
      }
    }
  }

  /** The moves that end the next task, when nothing blocks it. */
  lemma CanEnd(c: Chain, n: nat) returns (ms: seq<Move>, c': Chain)
    requires Inv(c, n) && n < |c.tasks| && !(c.tasks[n].Awaiting? && n <= c.tasks[n].task)
    ensures Leads(c, ms, c') && Ends(ms) == 1
  {
    assert Ends([End(n)]) == 1 by { assert [End(n)][1..] == []; }
    var first := if c.tasks[n].Queued? then [Start(n)] else if c.tasks[n].Awaiting? then [Resume(n)] else [];
    ms := first + [End(n)];
    if first == [] {
      c' := Next(c, End(n));
      assert ms == [End(n)] && ms[1..] == [];
    } else {
      var d := Next(c, first[0]);
      c' := Next(d, End(n));
      assert ms == [first[0], End(n)] && ms[1..] == [End(n)] && ms[1..][1..] == [];
    }
  }

  ghost predicate NothingEverEnds(c: Chain) {
    forall ms, c' :: Leads(c, ms, c') ==> Ends(ms) == 0
  }

  /**
   * From any state the process reaches with a call outstanding, no call ever returns again if and only if
   * a callback awaits its own task or one behind it.
   */
  lemma HaltsExactly(c: Chain, ms: seq<Move>, c': Chain)
    requires Fresh(c) && Leads(c, ms, c') && exists i :: 0 <= i < |c'.tasks| && !c'.tasks[i].Ended?
    ensures NothingEverEnds(c') <==> SelfBlocked(c')
  {
    InvRun(c, 0, ms, c');
    var n := Ends(ms);
    if SelfBlocked(c') {
      forall more, d | Leads(c', more, d) ensures Ends(more) == 0 {
        BlockedRun(c', n, more, d);
      }
    } else {
      var more, d := CanEnd(c', n);
    }
  }

  /**
   * A callback that calls withHedge and awaits it halts the ledger for good, whatever came before: nothing is
   * committed, written to disk or answered any more. The scheduler's cycle is such a callback as soon as
   * one certificate is due, since its price port awaits withHedge.
   */
  lemma NestedCallHalts(c: Chain, ms: seq<Move>, s: Chain, i: nat, more: seq<Move>, d: Chain)
    requires Fresh(c) && Leads(c, ms, s) && i < |s.tasks| && s.tasks[i].Running?
    ensures var halted := s.(tasks := s.tasks[i := Awaiting(|s.tasks|)] + [Queued]);
      && Leads(s, [Enqueue, Await(i, |s.tasks|)], halted)
      && NothingEverEnds(halted)
      && (Leads(halted, more, d) ==> d.events == s.events && d.disk == s.disk)
  {
    var j := |s.tasks|;
    var called := Next(s, Enqueue);
    var halted := s.(tasks := s.tasks[i := Awaiting(j)] + [Queued]);
    InvRun(c, 0, ms, s);
    InvStep(s, Ends(ms), Enqueue);
    InvStep(called, Ends(ms), Await(i, j));
    assert Next(called, Await(i, j)).tasks == halted.tasks;
    assert Leads(s, [Enqueue, Await(i, j)], halted) by {
      assert [Enqueue, Await(i, j)][1..] == [Await(i, j)] && [Await(i, j)][1..] == [];
    }
    forall ns, e | Leads(halted, ns, e) ensures Ends(ns) == 0 && e.events == s.events && e.disk == s.disk {
      BlockedRun(halted, i, ns, e);
    }
  }
}
