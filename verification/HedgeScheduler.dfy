/**
 * settlement-scheduler.ts: cycle after cycle over one ledger, the outbox that collects their payouts, and
 * what holds across cycles, whatever else happens to the ledger between them.
 */
module HedgeScheduler {
  import opened Outcomes
  import opened HedgeTypes
  import opened HedgeInvariants
  import opened HedgeTransitions
  import opened HedgeReplay
  import opened HedgeScans
  import opened HedgeIntake
  import opened HedgeLedger
  import opened HedgePayouts
  import opened HedgeWalk
  import opened HedgeRunner

  /** One cycle as it went: the log around it, what the ports answered, and what became of it. */
  datatype Cycle = Cycle(
    before: seq<Event>, after: seq<Event>, ports: Ports, s: State, began: int, ended: int, course: Course,
    r: Result<CycleReport, Abort>, calls: seq<Payout>)

  ghost predicate IsCycle(lcfg: Config, rcfg: RunnerConfig, c: Cycle) {
    CycleOf(lcfg, c.ports, rcfg, c.before, c.after, c.s, c.began, c.ended, c.course, c.r, c.calls)
  }

  /** The payouts a cycle put in the log as settled or refunded. */
  ghost function Logged(c: Cycle): seq<Payout> {
    if c.r.Ok? then Dues(c.r.value.settled) + Dues(c.r.value.refunded)
    else if Begins(c.ports) then c.course.w.paid
    else []
  }

  /** The payouts a cycle hands on: a report that was never made hands on none. */
  ghost function Sent(c: Cycle): seq<Payout> { if c.r.Ok? then ToPay(Logged(c)) else [] }

  /** The payouts a cycle logged and dropped. */
  ghost function Dropped(c: Cycle): seq<Payout> { if c.r.Ok? then [] else Logged(c) }

  /** The cycles follow one another in the log, with anything between them. */
  ghost predicate InOrder(log: seq<Event>, cycles: seq<Cycle>) {
    && (forall i :: 0 <= i < |cycles| ==> Continues(cycles[i].before, cycles[i].after) && Continues(cycles[i].after, log))
    && (forall i, j :: 0 <= i < j < |cycles| ==> |cycles[i].after| <= |cycles[j].before|)
  }

  // ---- One cycle owes what its part of the log says ----

  lemma PaysMatches(s: State, es: seq<Event>, ps: seq<Payout>)
    requires Pays(s, es, ps)
    ensures Matches(es, ps)
  {
  }

  lemma CycleMatches(lcfg: Config, rcfg: RunnerConfig, c: Cycle)
    requires IsCycle(lcfg, rcfg, c)
    ensures Continues(c.before, c.after) && Matches(c.after[|c.before|..], Logged(c))
    ensures c.calls == if rcfg.dryRun then [] else Sent(c)
  {
    hide Pays, Matches, Begins, Dues, Foreseen, Completed, Counted, LeftOver, ToPay;
    if c.r.Ok? {
      PaysMatches(c.s, c.after[|c.before|..], Logged(c));
    } else if Begins(c.ports) {
      var a := c.after[..c.course.mid];
      assert a[|c.before|..] == c.after[|c.before|..c.course.mid];
      assert c.after[|a|..] == c.after[c.course.mid..];
      QuietThenPays(c.before, a, c.after, c.s, c.course.w.paid);
      PaysMatches(c.s, c.after[|c.before|..], c.course.w.paid);
    } else {
      assert c.after[|c.before|..c.course.mid] == c.after[|c.before|..];
      NothingMatched(c.after[|c.before|..]);
    }
  }

  lemma NothingMatched(es: seq<Event>)
    requires Quiet(es)
    ensures Matches(es, [])
  {
    NoPayoutEvents(es);
  }

  // ---- What a cycle scanned is in the ledger before it settles anything ----

  lemma OpeningHolds(lcfg: Config, rcfg: RunnerConfig, c: Cycle)
    requires IsCycle(lcfg, rcfg, c) && Begins(c.ports)
    ensures var o, ts := c.course, c.ports.scan.value.transfers;
      && Replay(c.before) == Ok(o.s0) && Takeable(ts, o.ms) && c.began <= o.lapsedAt <= c.ended && ts[..|ts|] == ts
      && Clocked(o.ms, c.began, o.lapsedAt)
      && o.s1 == OpeningOf(lcfg, c.ports.checkpointOf, o.s0, ts, |ts|, o.ms, o.lapsedAt).state
      && (c.r.Ok? ==> var x := TakeAll(lcfg, c.ports.checkpointOf, o.s0, ts, o.ms);
                      c.r.value.observed == x.observed && c.r.value.activated == x.activated)
  {
    hide OpeningOf, TakeAll, Replay, CycleOutcome, Completed, Foreseen, Stranded;
    var ts := c.ports.scan.value.transfers;
    assert ts[..|ts|] == ts;
  }

  /**
   * In the ledger a cycle settles from, every scanned signature has its payment, those it knew are
   * as they were, and each new one brought exactly one, which is how many the report calls observed; and no
   * quote is open that was stale when the cycle began.
   */
  lemma ScanIsObserved(lcfg: Config, rcfg: RunnerConfig, c: Cycle)
    requires IsCycle(lcfg, rcfg, c) && Begins(c.ports)
    ensures Replay(c.before).Ok?
    ensures var ts, ps, qs := c.ports.scan.value.transfers, Replay(c.before).value.payments, c.course.s1.payments;
      && (forall k :: 0 <= k < |ts| ==> exists n :: 0 <= n < |qs| && qs[n].terms.txSignature == ts[k].txSignature)
      && ps <= qs
      && var unseen := set k | 0 <= k < |ts| && (forall n :: 0 <= n < |ps| ==> ps[n].terms.txSignature != ts[k].txSignature)
                       :: ts[k].txSignature;
         |qs| == |ps| + |unseen| && (c.r.Ok? ==> c.r.value.observed == |unseen|)
    ensures forall n :: 0 <= n < |c.course.s1.quotes| && c.course.s1.quotes[n].status == Open ==>
      c.began <= c.course.s1.quotes[n].terms.validUntil
  {
    hide IsCycle, TakeAll, Replay;
    OpeningHolds(lcfg, rcfg, c);
    var o, ts := c.course, c.ports.scan.value.transfers;
    var x := TakeAll(lcfg, c.ports.checkpointOf, o.s0, ts, o.ms);
    ObservedIsCount(lcfg, c.ports.checkpointOf, o.s0, ts, o.ms);
    StaleQuotesLapse(lcfg, c.ports.checkpointOf, o.s0, ts, o.ms, o.lapsedAt);
    var ps := o.s0.payments;
    var unseen := set k | 0 <= k < |ts| && (forall n :: 0 <= n < |ps| ==> ps[n].terms.txSignature != ts[k].txSignature)
                  :: ts[k].txSignature;
    assert unseen == NewSignatures(o.s0, ts) by {
      forall k | 0 <= k < |ts|
        ensures PaymentByTx(ps, ts[k].txSignature) == |ps|
                <==> forall n :: 0 <= n < |ps| ==> ps[n].terms.txSignature != ts[k].txSignature
      {
      }
    }
    forall k | 0 <= k < |ts| ensures exists n :: 0 <= n < |o.s1.payments| && o.s1.payments[n].terms.txSignature == ts[k].txSignature {
      KnownAfter(lcfg, c.ports.checkpointOf, o.s0, ts, o.ms, ts[k].txSignature);
      var n := PaymentByTx(x.state.payments, ts[k].txSignature);
      assert o.s1.payments[n].terms.txSignature == ts[k].txSignature;
    }
  }

  /** The event of a transfer's credit, in the log of the cycle, and the ledger just before it. */
  lemma CreditPlace(lcfg: Config, rcfg: RunnerConfig, c: Cycle, k: nat, e: Event)
    requires IsCycle(lcfg, rcfg, c) && Begins(c.ports) && k < |c.ports.scan.value.transfers|
    requires Takeable(c.ports.scan.value.transfers, c.course.ms)
    requires var ts := c.ports.scan.value.transfers;
      Before(lcfg, c.ports.checkpointOf, c.course.s0, ts, c.course.ms, k).log + [e]
      <= TakeAll(lcfg, c.ports.checkpointOf, c.course.s0, ts, c.course.ms).log
    ensures var x := Before(lcfg, c.ports.checkpointOf, c.course.s0, c.ports.scan.value.transfers, c.course.ms, k);
      var i := |c.before| + |x.log|;
      i < c.course.mid <= |c.after| && c.after[i] == e && Replay(c.after[..i]) == Ok(x.state)
  {
    hide TakeAll, Replay, Foreseen, Completed, Stranded, CycleOutcome, Takeable, Scanned;
    var o, ts := c.course, c.ports.scan.value.transfers;
    assert o.taken == |ts| by { AllScanned(ts, o.taken); }
    assert ts[..|ts|] == ts;
    var x, y := Before(lcfg, c.ports.checkpointOf, o.s0, ts, o.ms, k), TakeAll(lcfg, c.ports.checkpointOf, o.s0, ts, o.ms);
    assert Reaches(lcfg, c.ports.checkpointOf, c.before, o.s0, ts[..k], o.ms);
    var z := c.after[|c.before|..o.mid];
    assert y.log <= z;
    var i := |c.before| + |x.log|;
    assert z[..|x.log|] == y.log[..|x.log|] == x.log && z[|x.log|] == y.log[|x.log|] == e;
    assert c.after[..i] == c.before + x.log by {
      assert c.after[..i] == c.after[..|c.before|] + z[..|x.log|];
    }
  }

  lemma AllScanned(ts: seq<Transfer>, taken: nat)
    requires Scanned(ts, taken < |ts|, taken) && forall k :: 0 <= k < |ts| ==> ts[k].amount >= 0
    ensures taken == |ts|
  {
  }

  /**
   * The first transfer of the scan under a new signature is credited in the log of the cycle and in the ledger
   * it settles from, with its own terms; the payment is spent if and only if, in the state that log leads
   * to, the guards of activation hold; and then its certificate is there, with the checkpoint the port
   * answered, and in the report.
   */
  lemma ScanActivates(lcfg: Config, rcfg: RunnerConfig, c: Cycle, k: nat) returns (i: nat, seen: int, tried: int)
    requires IsCycle(lcfg, rcfg, c) && Begins(c.ports) && k < |c.ports.scan.value.transfers|
    requires forall n :: 0 <= n < |c.course.s0.payments| ==>
      c.course.s0.payments[n].terms.txSignature != c.ports.scan.value.transfers[k].txSignature
    requires forall j :: 0 <= j < k ==>
      c.ports.scan.value.transfers[j].txSignature != c.ports.scan.value.transfers[k].txSignature
    ensures c.began <= seen <= tried <= c.ended && c.ports.scan.value.transfers[k].amount >= 0
    ensures |c.before| <= i < c.course.mid <= |c.after| && Replay(c.after[..i]).Ok?
    ensures var t, x, s1 := c.ports.scan.value.transfers[k], Replay(c.after[..i]).value, c.course.s1;
      var p := PaymentTerms(t.txSignature, t.referenceKey, t.sender, t.amount, seen);
      var activates := Activates(lcfg, x.(payments := x.payments + [Payment(p, false)], treasury := x.treasury + t.amount,
                                          totalIn := x.totalIn + t.amount), tried, p);
      && c.after[i] == PaymentObserved(seen, Payment(p, false))
      && Payment(p, activates) in s1.payments
      && (activates ==>
            var d := NewCert(lcfg, tried, x.quotes[QuoteByRef(x.quotes, t.referenceKey)].terms);
            && d.(feeCheckpoint := c.ports.checkpointOf(d.terms.mint)) in s1.certs
            && (c.r.Ok? ==> d.terms.quoteId in c.r.value.activated))
  {
    hide IsCycle, TakeAll, Replay, Activates, NewCert, Before;
    OpeningHolds(lcfg, rcfg, c);
    var o, ts := c.course, c.ports.scan.value.transfers;
    assert FirstSeen(o.s0, ts, k);
    ScannedIsCredited(lcfg, c.ports.checkpointOf, o.s0, ts, o.ms, k);
    StaleQuotesLapse(lcfg, c.ports.checkpointOf, o.s0, ts, o.ms, o.lapsedAt);
    seen, tried := o.ms[k].seen, o.ms[k].tried;
    CreditPlace(lcfg, rcfg, c, k, PaymentObserved(seen, Payment(TermsOf(ts[k], seen), false)));
    i := |c.before| + |Before(lcfg, c.ports.checkpointOf, o.s0, ts, o.ms, k).log|;
  }

  /**
   * What a completed cycle leaves. A certificate due when it began and still active had a price that diverges
   * too much, and is in the report as deferred, or the budget fell short. A payment still unspent is
   * below the minimum, and then it is listed, or a quote may still wait for it.
   */
  lemma NothingIsLeftSilently(lcfg: Config, rcfg: RunnerConfig, c: Cycle)
    requires IsCycle(lcfg, rcfg, c) && c.r.Ok?
    ensures forall d :: d in c.s.certs && d.status == Active && c.began >= d.terms.expiry ==>
      && c.ports.priceOf(d).Answered?
      && (if c.ports.priceOf(d).value.divergenceBps > rcfg.maxDivergenceBps then d.terms.quoteId in c.r.value.deferred
          else c.r.value.shortfall.Some?)
    ensures forall n :: 0 <= n < |c.s.payments| && !c.s.payments[n].matched && c.s.payments[n].terms.amount >= rcfg.minRefund ==>
      !Refundable(c.s, c.began, c.s.payments[n].terms)
    ensures forall n :: 0 <= n < |c.s.payments| ==>
      (c.s.payments[n].terms.txSignature in c.r.value.dustSkipped
       <==> !c.s.payments[n].matched && c.s.payments[n].terms.amount < rcfg.minRefund)
  {
    hide Opens, Reported, Completed, Foreseen, PayoutsMade, Counted, Refundable;
    forall n | 0 <= n < |c.s.payments| && !c.s.payments[n].matched && c.s.payments[n].terms.amount >= rcfg.minRefund
      ensures !Refundable(c.s, c.began, c.s.payments[n].terms)
    {
      assert Swept(c.s, c.s.payments[n], rcfg.minRefund, c.began);
    }
    forall d | d in c.s.certs && d.status == Active && c.began >= d.terms.expiry
      ensures LeftActive(d, c.ports, rcfg, c.r.value.deferred, c.r.value.shortfall)
    {
      assert IsDue(d, c.began);
    }
  }

  // ---- Across cycles ----

  /** The entry k of what a cycle logged has its own place in the log, inside that cycle. */
  lemma PlaceOf(lcfg: Config, rcfg: RunnerConfig, log: seq<Event>, c: Cycle, k: nat) returns (i: nat)
    requires IsCycle(lcfg, rcfg, c) && Continues(c.before, c.after) && Continues(c.after, log) && k < |Logged(c)|
    ensures |c.before| <= i < |c.after| && Owes(log[i], Logged(c)[k])
  {
    hide IsCycle, Logged, PayoutEvents, Owes;
    CycleMatches(lcfg, rcfg, c);
    var es := c.after[|c.before|..];
    var a := OnePlace(es, k);
    i := |c.before| + a;
    assert es[a] == c.after[i] == c.after[..|c.after|][i];
    assert log[..|c.after|][i] == log[i];
  }

  /**
   * Two cycles of one ledger never settle the same quote id or refund the same signature, and neither does
   * one cycle twice.
   */
  lemma CyclesApart(lcfg: Config, rcfg: RunnerConfig, states: seq<State>, log: seq<Event>, cycles: seq<Cycle>)
    requires lcfg.Sane() && History(lcfg, states, log) && InOrder(log, cycles)
    requires forall i :: 0 <= i < |cycles| ==> IsCycle(lcfg, rcfg, cycles[i])
    ensures AllApart(cycles)
  {
    hide IsCycle, Logged, History, Owes, SameKey, DistinctKeys;
    forall i | 0 <= i < |cycles| ensures DistinctKeys(Logged(cycles[i])) {
      OneCycleApart(lcfg, rcfg, states, log, cycles[i]);
    }
    forall i, j | 0 <= i < j < |cycles| ensures Apart(Logged(cycles[i]), Logged(cycles[j])) {
      TwoCyclesApart(lcfg, rcfg, states, log, cycles[i], cycles[j]);
    }
  }

  lemma TwoCyclesApart(lcfg: Config, rcfg: RunnerConfig, states: seq<State>, log: seq<Event>, c: Cycle, d: Cycle)
    requires lcfg.Sane() && History(lcfg, states, log) && IsCycle(lcfg, rcfg, c) && IsCycle(lcfg, rcfg, d)
    requires Continues(c.before, c.after) && Continues(c.after, log) && Continues(d.before, d.after)
    requires Continues(d.after, log) && |c.after| <= |d.before|
    ensures Apart(Logged(c), Logged(d))
  {
    hide IsCycle, Logged, History, Owes, SameKey;
    forall m, n | 0 <= m < |Logged(c)| && 0 <= n < |Logged(d)| ensures !SameKey(Logged(c)[m], Logged(d)[n]) {
      var a := PlaceOf(lcfg, rcfg, log, c, m);
      var b := PlaceOf(lcfg, rcfg, log, d, n);
      TwoEventsTwoKeys(lcfg, states, log, a, b, Logged(c)[m], Logged(d)[n]);
    }
  }

  lemma NoneLogged(es: seq<Event>, ps: seq<Payout>)
    requires Matches(es, ps) && es == []
    ensures DistinctKeys(ps)
  {
  }

  lemma PrefixPaysOnce(lcfg: Config, states: seq<State>, log: seq<Event>, after: seq<Event>, from: nat, ps: seq<Payout>)
    requires lcfg.Sane() && History(lcfg, states, log) && 0 < |after| && Continues(after, log)
    requires from <= |after| && Matches(after[from..], ps)
    ensures DistinctKeys(ps)
  {
    HistoryPrefix(lcfg, states, log, |after|);
    NothingIsPaidTwice(lcfg, states[..|after|], after, from, ps);
  }

  lemma OneCycleApart(lcfg: Config, rcfg: RunnerConfig, states: seq<State>, log: seq<Event>, c: Cycle)
    requires lcfg.Sane() && History(lcfg, states, log) && Continues(c.after, log) && IsCycle(lcfg, rcfg, c)
    ensures DistinctKeys(Logged(c))
  {
    hide IsCycle, Logged, History, Matches, DistinctKeys;
    CycleMatches(lcfg, rcfg, c);
    if |c.after| == 0 {
      NoneLogged(c.after[|c.before|..], Logged(c));
    } else {
      PrefixPaysOnce(lcfg, states, log, c.after, |c.before|, Logged(c));
    }
  }

  /** Everything the cycles handed on, in order: the outbox. */
  ghost function SentAll(cycles: seq<Cycle>): seq<Payout> {
    if cycles == [] then [] else SentAll(cycles[..|cycles| - 1]) + Sent(cycles[|cycles| - 1])
  }

  lemma {:induction false} SentBySome(cycles: seq<Cycle>, k: nat) returns (i: nat)
    requires k < |SentAll(cycles)|
    ensures i < |cycles| && SentAll(cycles)[k] in Sent(cycles[i])
  {
    hide Sent;
    var n := |cycles| - 1;
    if k < |SentAll(cycles[..n])| {
      i := SentBySome(cycles[..n], k);
    } else {
      i := n;
      assert SentAll(cycles)[k] == Sent(cycles[n])[k - |SentAll(cycles[..n])|];
    }
  }

  lemma SentIsLogged(c: Cycle)
    requires DistinctKeys(Logged(c))
    ensures DistinctKeys(Sent(c)) && forall p :: p in Sent(c) ==> p in Logged(c)
    ensures forall p :: p in Logged(c) && p.amount > 0 ==> p in Sent(c) || p in Dropped(c)
  {
    hide Logged;
    ToPayDistinct(Logged(c));
  }

  ghost predicate Apart(ps: seq<Payout>, qs: seq<Payout>) {
    forall m, n :: 0 <= m < |ps| && 0 <= n < |qs| ==> !SameKey(ps[m], qs[n])
  }

  ghost predicate AllApart(cycles: seq<Cycle>) {
    && (forall i :: 0 <= i < |cycles| ==> DistinctKeys(Logged(cycles[i])))
    && (forall i, j :: 0 <= i < j < |cycles| ==> Apart(Logged(cycles[i]), Logged(cycles[j])))
  }

  /** No key is in the outbox twice. */
  lemma {:induction false} OutboxDistinct(cycles: seq<Cycle>)
    requires AllApart(cycles)
    ensures DistinctKeys(SentAll(cycles))
  {
    hide Logged, Sent, SameKey;
    if cycles != [] {
      var n := |cycles| - 1;
      OutboxDistinct(cycles[..n]);
      SentIsLogged(cycles[n]);
      forall k, m | 0 <= k < |SentAll(cycles[..n])| && 0 <= m < |Sent(cycles[n])|
        ensures !SameKey(SentAll(cycles[..n])[k], Sent(cycles[n])[m])
      {
        var i := SentBySome(cycles[..n], k);
        SentIsLogged(cycles[i]);
        InBoth(Logged(cycles[i]), Logged(cycles[n]), SentAll(cycles[..n])[k], Sent(cycles[n])[m]);
      }
      ConcatDistinct(SentAll(cycles[..n]), Sent(cycles[n]));
    }
  }

  lemma InBoth(ps: seq<Payout>, qs: seq<Payout>, p: Payout, q: Payout)
    requires Apart(ps, qs) && p in ps && q in qs
    ensures !SameKey(p, q) && !SameKey(q, p)
  {
    var m :| 0 <= m < |ps| && ps[m] == p;
    var n :| 0 <= n < |qs| && qs[n] == q;
    assert !SameKey(ps[m], qs[n]);
  }

  lemma ConcatDistinct(ps: seq<Payout>, qs: seq<Payout>)
    requires DistinctKeys(ps) && DistinctKeys(qs) && Apart(ps, qs)
    ensures DistinctKeys(ps + qs)
  {
    hide SameKey;
    forall i, j | 0 <= i < j < |ps + qs| ensures !SameKey((ps + qs)[i], (ps + qs)[j]) {
      if i < |ps| <= j {
        assert !SameKey(ps[i], qs[j - |ps|]);
      } else if i >= |ps| {
        assert !SameKey(qs[i - |ps|], qs[j - |ps|]);
      }
    }
  }

  /** What a cycle dropped, no cycle hands on, then or later. */
  lemma DroppedStaysDropped(cycles: seq<Cycle>, i: nat, p: Payout, q: Payout)
    requires AllApart(cycles) && i < |cycles| && p in Dropped(cycles[i]) && q in SentAll(cycles)
    ensures !SameKey(p, q)
  {
    hide Logged, SameKey, SentAll, DistinctKeys;
    var k :| 0 <= k < |SentAll(cycles)| && SentAll(cycles)[k] == q;
    var j := SentBySome(cycles, k);
    SentIsLogged(cycles[j]);
    if i < j {
      InBoth(Logged(cycles[i]), Logged(cycles[j]), p, q);
    } else if j < i {
      InBoth(Logged(cycles[j]), Logged(cycles[i]), q, p);
    } else {
      assert false;
    }
  }

  // ---- The scheduler ----

  /** The cursor moves only with a cycle that completes. */
  ghost function CursorAfter(cycles: seq<Cycle>): Option<Key> {
    if cycles == [] then None
    else
      var c := cycles[|cycles| - 1];
      if c.r.Ok? then c.r.value.cursor else CursorAfter(cycles[..|cycles| - 1])
  }

  lemma InOrderNext(log: seq<Event>, cycles: seq<Cycle>, c: Cycle)
    requires InOrder(log, cycles) && c.before == log && Continues(log, c.after)
    ensures InOrder(c.after, cycles + [c])
  {
    forall i | 0 <= i < |cycles| ensures Continues(cycles[i].after, c.after) {
      assert c.after[..|log|][..|cycles[i].after|] == c.after[..|cycles[i].after|];
    }
  }

  /** Anything else that happens to the ledger between two cycles only makes its log longer. */
  lemma BetweenCycles(log: seq<Event>, cycles: seq<Cycle>, log': seq<Event>)
    requires InOrder(log, cycles) && Continues(log, log')
    ensures InOrder(log', cycles)
  {
    forall i | 0 <= i < |cycles| ensures Continues(cycles[i].after, log') {
      assert log'[..|log|][..|cycles[i].after|] == log'[..|cycles[i].after|];
    }
  }

  lemma SentNext(cycles: seq<Cycle>, c: Cycle)
    ensures SentAll(cycles + [c]) == SentAll(cycles) + Sent(c)
    ensures CursorAfter(cycles + [c]) == if c.r.Ok? then c.r.value.cursor else CursorAfter(cycles)
  {
    assert (cycles + [c])[..|cycles|] == cycles;
  }

  lemma AllCyclesNext(lcfg: Config, rcfg: RunnerConfig, cycles: seq<Cycle>, c: Cycle)
    requires (forall i :: 0 <= i < |cycles| ==> IsCycle(lcfg, rcfg, cycles[i])) && IsCycle(lcfg, rcfg, c)
    ensures forall i :: 0 <= i < |cycles + [c]| ==> IsCycle(lcfg, rcfg, (cycles + [c])[i])
  {
  }

  class Scheduler {
    const rcfg: RunnerConfig
    var cursor: Option<Key>
    var outbox: seq<Payout>
    ghost const lcfg: Config
    ghost var cycles: seq<Cycle>

    /** The outbox and the cursor are what the cycles so far left, and those are cycles of this log. */
    ghost predicate Valid(log: seq<Event>)
      reads this
    {
      && rcfg.dryRun && InOrder(log, cycles)
      && (forall i :: 0 <= i < |cycles| ==> IsCycle(lcfg, rcfg, cycles[i]))
      && outbox == SentAll(cycles) && cursor == CursorAfter(cycles)
    }

    constructor (ghost lcfg: Config, floatCap: int, minRefund: int, maxDivergenceBps: int, ghost log: seq<Event>)
      ensures this.lcfg == lcfg && rcfg == RunnerConfig(floatCap, minRefund, maxDivergenceBps, true)
      ensures Valid(log) && cycles == [] && outbox == [] && cursor == None
    {
      rcfg := RunnerConfig(floatCap, minRefund, maxDivergenceBps, true);
      this.lcfg := lcfg;
      cursor, outbox, cycles := None, [], [];
    }

    /**
     * One tick: a cycle that only plans, then its positive payouts queued. However many ticks there were,
     * and whatever happened to the ledger between them, no key is queued twice, and what a failed tick
     * settled is never queued.
     */
    method RunCycleOnce(l: CertificateLedger, ports: Ports) returns (r: Result<CycleReport, Abort>)
      requires l.Valid() && l.config == lcfg && Valid(l.events) && this !in l.Repr
      modifies this, l.Repr, l.clock
      ensures l.Valid() && fresh(l.Repr - old(l.Repr)) && l.clock.last >= old(l.clock.last)
      ensures Valid(l.events) && Continues(old(l.events), l.events)
      ensures |cycles| == |old(cycles)| + 1 && cycles[..|old(cycles)|] == old(cycles)
      ensures var c := cycles[|old(cycles)|];
              c.ports == ports && c.before == old(l.events) && c.after == l.events && c.r == r
      ensures Matches(l.events[|old(l.events)|..], Logged(cycles[|old(cycles)|]))
      ensures cursor == if r.Ok? then r.value.cursor else old(cursor)
      ensures outbox == old(outbox) + (if r.Ok? then ToPay(Dues(r.value.settled) + Dues(r.value.refunded)) else [])
      ensures AllApart(cycles) && DistinctKeys(outbox)
      ensures forall i, p, q :: 0 <= i < |cycles| && p in Dropped(cycles[i]) && q in outbox ==> !SameKey(p, q)
    {
      hide CertificateLedger.Valid, IsCycle, InOrder, AllApart, DistinctKeys, SentAll, CursorAfter, SameKey, Dropped, Matches,
        CycleOf, ToPay, Logged;
      ghost var before, began, cycles0, outbox0 := l.events, l.clock.last, cycles, outbox;
      ghost var course;
      var calls;
      r, calls, course := RunSettlementCycle(l, ports, rcfg, cursor);
      ghost var c := Cycle(before, l.events, ports, l.state, began, l.clock.last, course, r, calls);
      NewCycle(lcfg, rcfg, c);
      cycles := cycles + [c];
      InOrderNext(before, cycles0, c);
      AllCyclesNext(lcfg, rcfg, cycles0, c);
      SentNext(cycles0, c);
      if r.Ok? {
        cursor := r.value.cursor;
        Queue(r.value);
        SentByReport(c);
      } else {
        assert Sent(c) == [] && outbox0 + [] == outbox0;
      }
      Consequences(l);
    }

    /** Queues the positive payouts of a report, settlements first. */
    method Queue(report: CycleReport)
      modifies `outbox
      ensures outbox == old(outbox) + ToPay(Dues(report.settled) + Dues(report.refunded))
    {
      var records := report.settled + report.refunded;
      ghost var dues := Dues(report.settled) + Dues(report.refunded);
      QueueStart(dues);
      hide ToPay, Dues;
      for i := 0 to |records|
        invariant outbox == old(outbox) + ToPay(dues[..i])
      {
        QueueNext(dues, i);
        if records[i].due.amount > 0 {
          outbox := outbox + [records[i].due];
        }
      }
      assert dues[..|records|] == dues;
    }

    lemma QueueStart(dues: seq<Payout>)
      ensures ToPay(dues[..0]) == []
    {
    }

    lemma QueueNext(dues: seq<Payout>, i: nat)
      requires i < |dues|
      ensures ToPay(dues[..i + 1]) == ToPay(dues[..i]) + (if dues[i].amount > 0 then [dues[i]] else [])
    {
      assert dues[..i + 1][..i] == dues[..i];
    }

    lemma Consequences(l: CertificateLedger)
      requires l.Valid() && l.config == lcfg && InOrder(l.events, cycles)
      requires forall i :: 0 <= i < |cycles| ==> IsCycle(lcfg, rcfg, cycles[i])
      requires outbox == SentAll(cycles)
      ensures AllApart(cycles) && DistinctKeys(outbox)
      ensures forall i, p, q :: 0 <= i < |cycles| && p in Dropped(cycles[i]) && q in outbox ==> !SameKey(p, q)
    {
      hide IsCycle, InOrder, AllApart, DistinctKeys, SentAll, SameKey, Dropped, History;
      LedgerFacts(l);
      CyclesApart(lcfg, rcfg, l.history, l.events, cycles);
      OutboxDistinct(cycles);
      forall i, p, q | 0 <= i < |cycles| && p in Dropped(cycles[i]) && q in outbox ensures !SameKey(p, q) {
        DroppedStaysDropped(cycles, i, p, q);
      }
    }
  }

  lemma NewCycle(lcfg: Config, rcfg: RunnerConfig, c: Cycle)
    requires CycleOf(lcfg, c.ports, rcfg, c.before, c.after, c.s, c.began, c.ended, c.course, c.r, c.calls)
    ensures IsCycle(lcfg, rcfg, c) && Continues(c.before, c.after) && Matches(c.after[|c.before|..], Logged(c))
  {
    hide CycleOf;
    CycleMatches(lcfg, rcfg, c);
  }

  lemma SentByReport(c: Cycle)
    requires c.r.Ok?
    ensures Sent(c) == ToPay(Dues(c.r.value.settled) + Dues(c.r.value.refunded))
  {
  }

  // ---- When a cycle fails, and what that drops ----

  /** The certificate due as number k stops the walk of the cycle. */
  ghost predicate FailsAt(lcfg: Config, rcfg: RunnerConfig, c: Cycle, k: nat) {
    && Begins(c.ports) && Foreseen(lcfg, c.ports, rcfg, c.after, c.course.mid, c.course.scanned, c.course.s1, c.course.w)
    && k < |Due(c.course.s1.certs, c.course.scanned)|
    && StopsAt(lcfg, c.course.s1.quotes, c.ports, rcfg, Budget(c.ports, rcfg), Due(c.course.s1.certs, c.course.scanned), k)
  }

  /**
   * A cycle fails exactly when the scan or the balance threw, a transfer was negative, or a certificate its
   * walk reached had a throwing port or negative fees.
   */
  lemma FailsExactly(lcfg: Config, rcfg: RunnerConfig, c: Cycle)
    requires IsCycle(lcfg, rcfg, c)
    ensures c.r.Err? <==> !Begins(c.ports) || exists k :: FailsAt(lcfg, rcfg, c, k)
  {
    hide WalkAll, StopsAt, Stranded, Completed, CycleOutcome, Due, AllQuoted, Replay, Begins;
    if Begins(c.ports) {
      var due, budget := Due(c.course.s1.certs, c.course.scanned), Budget(c.ports, rcfg);
      StoppedExactly(lcfg, c.course.s1.quotes, c.ports, rcfg, budget, due);
      if k :| 0 <= k < |due| && StopsAt(lcfg, c.course.s1.quotes, c.ports, rcfg, budget, due, k) {
        assert FailsAt(lcfg, rcfg, c, k);
      }
    }
  }

  /**
   * What a failed cycle drops: the settlements before the certificate that stopped it, and so nothing
   * exactly when none of those before it was payable.
   */
  lemma FailureDrops(lcfg: Config, rcfg: RunnerConfig, c: Cycle, k: nat)
    requires IsCycle(lcfg, rcfg, c) && FailsAt(lcfg, rcfg, c, k)
    ensures var due, budget := Due(c.course.s1.certs, c.course.scanned), Budget(c.ports, rcfg);
            && Dropped(c) == WalkAll(lcfg, c.course.s1.quotes, c.ports, rcfg, budget, due[..k]).paid
            && Pays(c.s, c.after[c.course.mid..], Dropped(c))
            && (Dropped(c) == [] <==> forall j :: 0 <= j < k ==> !Payable(c.ports, rcfg, budget, due[j]))
  {
    hide WalkAll, StopsAt, Completed, CycleOutcome, Due, AllQuoted, Replay, Begins, Payable, Pays;
    StopStrands(lcfg, c.course.s1.quotes, c.ports, rcfg, Budget(c.ports, rcfg), Due(c.course.s1.certs, c.course.scanned), k);
  }

  // ---- Refunds have no budget ----

  /**
   * A completed cycle settles within its budget. With its refunds it stays within it exactly when the
   * refunds fit in what the settlements left; and they do if the sweep, taken at the end of the cycle,
   * fits there, and only if the sweep at the time of the scan does.
   */
  lemma SettlementsAndRefunds(lcfg: Config, rcfg: RunnerConfig, c: Cycle)
    requires lcfg.Sane() && IsCycle(lcfg, rcfg, c) && c.r.Ok?
    ensures var settled, refunded := Owed(Dues(c.r.value.settled)), Owed(Dues(c.r.value.refunded));
            var budget := Budget(c.ports, rcfg);
            && settled <= Max(0, budget) && settled == budget - c.course.w.left
            && (settled + refunded <= budget <==> refunded <= c.course.w.left)
            && (SweepTotal(c.course.s1, rcfg.minRefund, c.ended) <= c.course.w.left ==> settled + refunded <= budget)
            && (SweepTotal(c.course.s1, rcfg.minRefund, c.course.scanned) > c.course.w.left ==> settled + refunded > budget)
  {
    hide WalkAll, SweepTotal, CycleOutcome, Due, AllQuoted, Replay, Begins;
    WalkWithinBudget(lcfg, c.course.s1.quotes, c.ports, rcfg, Budget(c.ports, rcfg), Due(c.course.s1.certs, c.course.scanned));
  }
}
