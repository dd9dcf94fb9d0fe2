/**
 * runner.ts: one settlement cycle over the ports, and the scheduler that repeats it. Port answers are
 * arbitrary; a port that throws outside a try block ends the cycle where it is.
 */
module HedgeRunner {
  import opened Outcomes
  import opened HedgeTypes
  import opened HedgeInvariants
  import opened HedgeTransitions
  import opened HedgeSafety
  import opened HedgeRuns
  import opened HedgeReplay
  import opened HedgeTrace
  import opened HedgeScans
  import opened HedgeIntake
  import opened HedgeLedger
  import opened HedgePayouts
  import opened HedgeWalk
  import opened Sums

  datatype PayoutRecord = PayoutRecord(due: Payout, executedTx: Option<Key>)

  datatype CycleReport = CycleReport(
    observed: int, activated: seq<Key>, lapsed: nat, settled: seq<PayoutRecord>, refunded: seq<PayoutRecord>,
    deferred: seq<Key>, failed: seq<PayoutRecord>, shortfall: Option<int>, dustSkipped: seq<Key>,
    cursor: Option<Key>, invariantsOk: bool)

  // ---- Due certificates ----

  lemma {:induction false} DueKeyed(cs: seq<Cert>, now: int)
    requires CertsKeyed(cs)
    ensures CertsKeyed(Due(cs, now))
  {
    if cs != [] {
      var c := cs[..|cs| - 1];
      DueKeyed(c, now);
      forall k | 0 <= k < |Due(c, now)| ensures Due(c, now)[k].terms.quoteId != cs[|cs| - 1].terms.quoteId {
        DueSound(c, now, Due(c, now)[k]);
      }
    }
  }

  /** The certificates still to be visited are in the ledger as the scan saw them. */
  ghost predicate StillDue(s: State, due: seq<Cert>, from: nat, now: int) {
    && CertsKeyed(due)
    && forall k :: from <= k < |due| ==> due[k] in s.certs && IsDue(due[k], now)
  }

  lemma DueStart(cfg: Config, s: State, now: int, due: seq<Cert>)
    requires Inv(cfg, s, now) && due == Due(s.certs, now)
    ensures StillDue(s, due, 0, now)
  {
    DueKeyed(s.certs, now);
    forall k | 0 <= k < |due| ensures due[k] in s.certs && IsDue(due[k], now) {
      DueSound(s.certs, now, due[k]);
    }
  }

  lemma SettledRest(s: State, due: seq<Cert>, i: nat, now: int, x: Settlement, st: CertStatus, later: int)
    requires i < |due| && StillDue(s, due, i, now) && now <= later
    requires CertById(s.certs, due[i].terms.quoteId) < |s.certs|
    ensures StillDue(WithSettlement(s, CertById(s.certs, due[i].terms.quoteId), x, st), due, i + 1, later)
  {
    var n := CertById(s.certs, due[i].terms.quoteId);
    var s' := WithSettlement(s, n, x, st);
    forall k | i + 1 <= k < |due| ensures due[k] in s'.certs && IsDue(due[k], later) {
      var m :| 0 <= m < |s.certs| && s.certs[m] == due[k];
      assert due[i].terms.quoteId != due[k].terms.quoteId;
      assert s'.certs[m] == s.certs[m];
    }
  }

  /** The ledger after one settlement: the certificate is rewritten, everything else stays. */
  ghost predicate SettledFrom(s: State, id: Key, s': State) {
    var n := CertById(s.certs, id);
    n < |s.certs| && exists x, st :: st != Active && s' == WithSettlement(s, n, x, st)
  }

  /** What settle answers for a due certificate: never a refusal, and the payout the walk foresees. */
  lemma DueSettles(cfg: Config, s: State, before: int, now: int, c: Cert, reading: Reading, fees: nat,
                   s': State, added: seq<Event>, r: Result<(int, Key), LedgerError>)
    requires cfg.Sane() && Inv(cfg, s, before) && c in s.certs && IsDue(c, now)
    requires SettleOutcome(cfg, s, c.terms.quoteId, reading, fees, now, s', added, r)
    ensures Quoted(s.quotes, c)
    ensures var p := SettlementPayout(cfg, s.quotes, c, reading, fees);
            r == Ok((p.amount, p.to)) && |added| == 1 && Owes(added[0], p) && RightParty(s', p)
    ensures SameTerms(s, s') && s'.quotes == s.quotes && s'.payments == s.payments
    ensures SettledFrom(s, c.terms.quoteId, s')
  {
    hide Payoff, FeeSplit, SettlementAmount;
    var i :| 0 <= i < |s.certs| && s.certs[i] == c;
    assert CertOfQuote(s, c.terms);
    assert CertById(s.certs, c.terms.quoteId) == i;
    DueCertificateSettles(cfg, s, before, now, i, reading.price, fees);
    CertIndexKept(s.certs, s'.certs, c.terms.quoteId);
  }

  // ---- The phases of a cycle ----

  lemma LedgerFacts(l: CertificateLedger)
    requires l.Valid()
    ensures l.config.Sane() && l in l.Repr && l.clock !in l.Repr
    ensures |l.events| > 0 && Inv(l.config, l.state, l.clock.last) && PaymentsKeyed(l.state.payments)
  {
    InvariantOfRun(l.config, l.history, l.events);
    TimePasses(l.config, l.state, l.events[|l.events| - 1].ts, l.clock.last);
  }

  // ---- Steps 1 and 2 ----

  /** An observation, and the checkpoint that follows an activation, are one step of the intake. */
  lemma OutcomeIsTake(cfg: Config, checkpointOf: Checkpoints, s: State, t: Transfer, m: Moment, s1: State,
                      added: seq<Event>, res: Result<(bool, Option<Cert>), LedgerError>, s2: State, noted: seq<Event>)
    requires t.amount >= 0 && ObserveOutcome(cfg, s, t, m.seen, m.tried, s1, added, res)
    requires
      if res.Ok? && res.value.1.Some? && checkpointOf(res.value.1.value.terms.mint).Some? then
        CheckpointOutcome(s1, res.value.1.value.terms.quoteId, checkpointOf(res.value.1.value.terms.mint).value, m.noted, s2, noted)
      else s2 == s1 && noted == []
    ensures res.Ok?
    ensures var d := Take(cfg, checkpointOf, Intake(s, [], 0, []), t, m);
      && d.state == s2 && d.log == added + noted
      && d.observed == (if res.value.0 then 1 else 0)
      && d.activated == (if res.value.1.Some? then [res.value.1.value.terms.quoteId] else [])
  {
    hide Headroom, WithinBuyerLimit, Live, QuoteByRef, PaymentByTx;
    if res.value.1.Some? {
      var c := res.value.1.value;
      assert CertById(s1.certs, c.terms.quoteId) == |s.certs| by {
        assert CertById(s.certs, c.terms.quoteId) == |s.certs|;
        CertIndexAppend(s.certs, c, c.terms.quoteId);
      }
      assert s1.certs[|s.certs|] == c;
    }
  }

  /** Observes one transfer and, when that activates a certificate, records its fee checkpoint. */
  method TakeOne(l: CertificateLedger, ports: Ports, t: Transfer)
    returns (res: Result<(bool, Option<Cert>), LedgerError>, ghost m: Moment)
    requires l.Valid()
    modifies l.Repr, l.clock
    ensures l.Valid() && fresh(l.Repr - old(l.Repr))
    ensures old(l.clock.last) <= m.seen <= m.tried <= m.noted == l.clock.last
    ensures res.Err? <==> t.amount < 0
    ensures res.Err? ==> l.state == old(l.state) && l.events == old(l.events)
    ensures res.Ok? ==>
      var d := Take(l.config, ports.checkpointOf, Intake(old(l.state), [], 0, []), t, m);
      && l.state == d.state && l.events == old(l.events) + d.log
      && d.observed == (if res.value.0 then 1 else 0)
      && d.activated == (if res.value.1.Some? then [res.value.1.value.terms.quoteId] else [])
  {
    hide CertificateLedger.Valid, ObserveOutcome, CheckpointOutcome, Take, Inv, PaymentsKeyed, Activates, NewCert;
    LedgerFacts(l);
    ghost var before, s := l.events, l.state;
    res := l.ObservePayment(t);
    ghost var tried, s1 := l.clock.last, l.state;
    ghost var seen, added :| ObserveOutcome(l.config, s, t, seen, tried, s1, added, res) && l.events == before + added
                             && old(l.clock.last) <= seen <= tried;
    ghost var noted: seq<Event> := [];
    OutcomeErr(l.config, s, t, seen, tried, s1, added, res);
    if res.Ok? && res.value.1.Some? {
      var cert := res.value.1.value;
      var cp := ports.checkpointOf(cert.terms.mint);
      if cp.Some? {
        LedgerFacts(l);
        l.RecordFeeCheckpoint(cert.terms.quoteId, cp.value);
        noted :| CheckpointOutcome(s1, cert.terms.quoteId, cp.value, l.clock.last, l.state, noted)
                 && l.events == before + added + noted;
      }
    }
    m := Moment(seen, tried, l.clock.last);
    if res.Ok? {
      OutcomeIsTake(l.config, ports.checkpointOf, s, t, m, s1, added, res, l.state, noted);
      assert before + (added + noted) == before + added + noted;
    }
  }

  lemma OutcomeErr(cfg: Config, s: State, t: Transfer, seen: int, tried: int, s': State, added: seq<Event>,
                   res: Result<(bool, Option<Cert>), LedgerError>)
    requires ObserveOutcome(cfg, s, t, seen, tried, s', added, res)
    ensures res.Err? <==> t.amount < 0
    ensures res.Err? ==> s' == s && added == []
  {
    hide Activates, NewCert;
  }

  /** Step 1: payments in, activations, and a fee checkpoint per activation when one can be read. */
  method ObservePhase(l: CertificateLedger, ports: Ports, transfers: seq<Transfer>)
    returns (aborted: bool, observed: int, activated: seq<Key>, ghost taken: nat, ghost ms: seq<Moment>)
    requires l.Valid()
    modifies l.Repr, l.clock
    ensures l.Valid() && fresh(l.Repr - old(l.Repr))
    ensures Scanned(transfers, aborted, taken) && Clocked(ms, old(l.clock.last), l.clock.last)
    ensures Takeable(transfers[..taken], ms) && Continues(old(l.events), l.events)
    ensures Intake(l.state, l.events[|old(l.events)|..], observed, activated)
         == TakeAll(l.config, ports.checkpointOf, old(l.state), transfers[..taken], ms)
    ensures l.clock.last >= old(l.clock.last)
    ensures Followed(l.config, ports.checkpointOf, old(l.events), old(l.state), transfers, ms, taken)
  {
    hide CertificateLedger.Valid, Take, TakeAll, Replay;
    observed, activated, aborted, taken, ms := 0, [], false, 0, [];
    ghost var start, s0, t0 := l.events, l.state, l.clock.last;
    TakeNone(l.config, ports.checkpointOf, s0, transfers);
    ghost var log: seq<Event> := [];
    ReplaysTo(l, start);
    assert start[..|start|] == start == start + log;
    for i := 0 to |transfers|
      invariant l.Valid() && fresh(l.Repr - old(l.Repr))
      invariant taken == i && |ms| == i && Clocked(ms, t0, l.clock.last) && Takeable(transfers[..i], ms)
      invariant l.events == start + log && Followed(l.config, ports.checkpointOf, start, s0, transfers, ms, i)
      invariant Intake(l.state, log, observed, activated) == TakeAll(l.config, ports.checkpointOf, s0, transfers[..i], ms)
    {
      ghost var x, ms0, t := TakeAll(l.config, ports.checkpointOf, s0, transfers[..i], ms), ms, l.clock.last;
      ghost var m;
      var res;
      res, m := TakeOne(l, ports, transfers[i]);
      if res.Err? {
        aborted := true;
        ClockRuns(ms, t0, t, l.clock.last);
        return;
      }
      if res.value.0 { observed := observed + 1; }
      if res.value.1.Some? { activated := activated + [res.value.1.value.terms.quoteId]; }
      taken, ms := i + 1, ms + [m];
      Onward(l.config, ports.checkpointOf, s0, transfers, ms0, i, m);
      TakeFrom(l.config, ports.checkpointOf, x, transfers[i], m);
      ClockTicks(ms0, m, t0, t);
      log := log + Take(l.config, ports.checkpointOf, Intake(x.state, [], 0, []), transfers[i], m).log;
      ReplaysTo(l, l.events);
      assert l.events[..|l.events|] == l.events == start + log;
      FollowedNext(l.config, ports.checkpointOf, start, s0, transfers, ms0, i, m);
    }
  }

  /** Step 2: lapse stale quotes. */
  method LapsePhase(l: CertificateLedger) returns (lapsed: nat)
    requires l.Valid()
    modifies l.Repr, l.clock
    ensures l.Valid() && l.Repr == old(l.Repr) && l.clock.last >= old(l.clock.last)
    ensures l.state == old(l.state).(quotes := LapseAll(old(l.state).quotes, l.clock.last))
    ensures l.events == old(l.events) + LapseEvents(old(l.state).quotes, l.clock.last)
    ensures lapsed == |LapseEvents(old(l.state).quotes, l.clock.last)|
  {
    hide CertificateLedger.Valid, LapseEvents, LapseAll;
    LedgerFacts(l);
    lapsed := l.LapseExpiredQuotes();
  }

  // ---- Step 3 ----

  /** Settling one due certificate throws only for a negative fee total. */
  method SettleOne(l: CertificateLedger, c: Cert, reading: Reading, fees: int) returns (r: Option<Payout>)
    requires l.Valid() && c in l.state.certs && IsDue(c, l.clock.last)
    modifies l.Repr, l.clock
    ensures l.Valid() && l.Repr == old(l.Repr) && l.clock.last >= old(l.clock.last)
    ensures fees < 0 ==> r == None && l.events == old(l.events) && l.state == old(l.state)
    ensures fees >= 0 ==>
      && Quoted(old(l.state).quotes, c)
      && r == Some(SettlementPayout(l.config, old(l.state).quotes, c, reading, fees))
      && |l.events| == |old(l.events)| + 1 && Continues(old(l.events), l.events)
      && Owes(l.events[|old(l.events)|], r.value) && RightParty(l.state, r.value)
      && SameTerms(old(l.state), l.state)
      && l.state.quotes == old(l.state).quotes && l.state.payments == old(l.state).payments
      && SettledFrom(old(l.state), c.terms.quoteId, l.state)
  {
    hide CertificateLedger.Valid, SettleRefusal, Inv, SettledFrom, SameTerms, RightParty, Owes;
    LedgerFacts(l);
    ghost var before, s, t := l.events, l.state, l.clock.last;
    var res := l.Settle(c.terms.quoteId, reading, fees);
    ghost var added :| SettleOutcome(l.config, s, c.terms.quoteId, reading, fees, l.clock.last, l.state, added, res)
                       && l.events == before + added;
    if fees < 0 {
      NegativeFeesRefused(l.config, s, l.clock.last, c.terms.quoteId, reading.price, fees);
      return None;
    }
    DueSettles(l.config, s, t, l.clock.last, c, reading, fees, l.state, added, res);
    var (amount, to) := res.value;
    r := Some(Payout(ForSettlement, c.terms.quoteId, to, amount));
    KindOfSettlement(l.config, s.quotes, c, reading, fees);
  }

  lemma NegativeFeesRefused(cfg: Config, s: State, now: int, id: Key, price: real, fees: int)
    requires fees < 0
    ensures SettleRefusal(cfg, s, now, id, price, fees) == Some(InvalidAmount)
  {
  }

  lemma DueLater(cs: seq<Cert>, now: int, later: int, c: Cert)
    requires c in cs && IsDue(c, now) && now <= later
    ensures c in Due(cs, later)
  {
    DueSound(cs, later, c);
  }

  lemma LedgerKeys(cfg: Config, s: State, now: int)
    requires Inv(cfg, s, now)
    ensures CertsKeyed(s.certs)
  {
  }

  lemma StillDueHere(s: State, due: seq<Cert>, i: nat, now: int)
    requires i < |due| && StillDue(s, due, i, now)
    ensures due[i] in s.certs && IsDue(due[i], now)
    ensures StillDue(s, due, i + 1, now)
  {
  }

  lemma StillDueAfter(s: State, due: seq<Cert>, i: nat, now: int, later: int, s': State)
    requires i < |due| && StillDue(s, due, i, now) && now <= later && SettledFrom(s, due[i].terms.quoteId, s')
    ensures StillDue(s', due, i + 1, later)
  {
    var x, st :| st != Active && s' == WithSettlement(s, CertById(s.certs, due[i].terms.quoteId), x, st);
    SettledRest(s, due, i, now, x, st, later);
  }

  /** Why a due certificate is still active after the cycle. */
  ghost predicate LeftActive(c: Cert, ports: Ports, rcfg: RunnerConfig, deferred: seq<Key>, shortfall: Option<int>) {
    && ports.priceOf(c).Answered?
    && (if Diverges(ports, rcfg, c) then c.terms.quoteId in deferred else shortfall.Some?)
  }

  /** An active certificate was there before the phase, and none that was paid for is active. */
  ghost predicate OnlyPaidClosed(s0: State, s: State, pending: seq<Payout>) {
    && (forall c :: c in s.certs && c.status == Active ==> c in s0.certs)
    && (forall c, k :: c in s.certs && c.status == Active && 0 <= k < |pending| ==>
          pending[k].reference != c.terms.quoteId)
  }

  lemma OnlyPaidClosedAfter(s0: State, s: State, pending: seq<Payout>, p: Payout, s': State)
    requires CertsKeyed(s.certs) && OnlyPaidClosed(s0, s, pending) && SettledFrom(s, p.reference, s')
    ensures OnlyPaidClosed(s0, s', pending + [p])
  {
    var n := CertById(s.certs, p.reference);
    forall c | c in s'.certs && c.status == Active ensures c in s.certs && c.terms.quoteId != p.reference {
      var m :| 0 <= m < |s'.certs| && s'.certs[m] == c;
      assert s.certs[m] == c && m != n;
    }
  }

  lemma WhyLeft(cfg: Config, s0: State, s: State, t0: int, t1: int, c: Cert, ports: Ports, rcfg: RunnerConfig,
                budget: int)
    requires t0 <= t1 && c in s.certs && IsDue(c, t0)
    requires AllQuoted(s0.quotes, Due(s0.certs, t1))
    requires var w := WalkAll(cfg, s0.quotes, ports, rcfg, budget, Due(s0.certs, t1));
             w.stopped == None && OnlyPaidClosed(s0, s, w.paid)
    ensures var w := WalkAll(cfg, s0.quotes, ports, rcfg, budget, Due(s0.certs, t1));
            LeftActive(c, ports, rcfg, w.deferred, w.shortfall)
  {
    hide WalkAll, Due;
    var due := Due(s0.certs, t1);
    WalkHandles(cfg, s0.quotes, ports, rcfg, budget, due);
    DueLater(s0.certs, t0, t1, c);
    var k :| 0 <= k < |due| && due[k] == c;
    assert Handled(ports, rcfg, WalkAll(cfg, s0.quotes, ports, rcfg, budget, due), due[k]);
  }

  lemma DueQuoted(cfg: Config, s: State, now: int, due: seq<Cert>)
    requires Inv(cfg, s, now) && due == Due(s.certs, now)
    ensures AllQuoted(s.quotes, due)
  {
    forall k | 0 <= k < |due| ensures Quoted(s.quotes, due[k]) {
      DueSound(s.certs, now, due[k]);
      var i :| 0 <= i < |s.certs| && s.certs[i] == due[k];
      assert CertOfQuote(s, s.certs[i].terms);
    }
  }

  lemma NothingSettledYet(s: State, log: seq<Event>)
    ensures Pays(s, log[|log|..], []) && OnlyPaidClosed(s, s, []) && SameTerms(s, s)
  {
    assert log[|log|..] == [];
  }

  /**
   * Step 3: the scan of the due certificates, and then exactly the walk over them. A walk that stops
   * leaves its settlements in the log.
   */
  method SettlePhase(l: CertificateLedger, ports: Ports, rcfg: RunnerConfig, budget: int)
    returns (abort: Option<Abort>, pending: seq<Payout>, deferred: seq<Key>, shortfall: Option<int>, ghost scanned: int)
    requires l.Valid()
    modifies l.Repr, l.clock
    ensures l.Valid() && l.Repr == old(l.Repr) && old(l.clock.last) <= scanned <= l.clock.last
    ensures AllQuoted(old(l.state).quotes, Due(old(l.state).certs, scanned))
    ensures exists left :: Walk(left, pending, deferred, shortfall, abort)
                           == WalkAll(l.config, old(l.state).quotes, ports, rcfg, budget, Due(old(l.state).certs, scanned))
    ensures Continues(old(l.events), l.events)
    ensures Pays(l.state, l.events[|old(l.events)|..], pending) && |l.events| == |old(l.events)| + |pending|
    ensures l.state.quotes == old(l.state).quotes && l.state.payments == old(l.state).payments
    ensures abort == None ==> forall c :: c in l.state.certs && IsDue(c, old(l.clock.last)) ==>
      LeftActive(c, ports, rcfg, deferred, shortfall)
  {
    hide CertificateLedger.Valid, Pays, LeftActive, OnlyPaidClosed, StillDue, SameTerms, SettledFrom, Due, IsDue, Owes,
      RightParty, Inv, WalkAll, SettlementPayout, AllQuoted;
    ghost var start, s0, t0 := l.events, l.state, l.clock.last;
    abort, pending, deferred, shortfall := None, [], [], None;
    var left := budget;
    LedgerFacts(l);
    var due := l.DueForSettlement();
    scanned := l.clock.last;
    LedgerFacts(l);
    DueStart(l.config, s0, scanned, due);
    DueQuoted(l.config, s0, scanned, due);
    NothingSettledYet(s0, start);
    WalkStart(l.config, s0.quotes, ports, rcfg, budget, due);
    for i := 0 to |due|
      invariant l.Valid() && l.Repr == old(l.Repr) && l.clock.last >= scanned && abort == None
      invariant Continues(start, l.events) && l.state.quotes == s0.quotes && l.state.payments == s0.payments
      invariant StillDue(l.state, due, i, l.clock.last)
      invariant Pays(l.state, l.events[|start|..], pending) && |l.events| == |start| + |pending|
      invariant OnlyPaidClosed(s0, l.state, pending)
      invariant PrefixQuoted(s0.quotes, due, i)
      invariant Walk(left, pending, deferred, shortfall, None) == WalkAll(l.config, s0.quotes, ports, rcfg, budget, due[..i])
    {
      var c := due[i];
      StillDueHere(l.state, due, i, l.clock.last);
      QuotedAt(s0.quotes, due, i);
      WalkNext(l.config, s0.quotes, ports, rcfg, budget, due, i);
      WalkKeepsStop(l.config, s0.quotes, ports, rcfg, budget, due, i + 1);
      var price := ports.priceOf(c);
      if price.Threw? { abort := Some(PortThrew); return; }
      var reading := price.value;
      if reading.divergenceBps > rcfg.maxDivergenceBps {
        deferred := deferred + [c.terms.quoteId];
        continue;
      }
      var fees := ports.feesOf(c);
      if fees.Threw? { abort := Some(PortThrew); return; }
      var worstCase := c.terms.capDown + c.terms.capUp;
      if worstCase > left {
        shortfall := Some((if shortfall.Some? then shortfall.value else 0) + worstCase - left);
        continue;
      }
      ghost var before, s, t := l.events, l.state, l.clock.last;
      LedgerFacts(l);
      var paid := SettleOne(l, c, reading, fees.value);
      if paid == None { abort := Some(BadFees); return; }
      KindOfSettlement(l.config, s0.quotes, c, reading, fees.value);
      StillDueAfter(s, due, i, t, l.clock.last, l.state);
      SettledSegment(s, start, before, pending, l.events, paid.value, l.state);
      LedgerKeys(l.config, s, t);
      OnlyPaidClosedAfter(s0, s, pending, paid.value, l.state);
      pending := pending + [paid.value];
      left := left - paid.value.amount;
    }
    assert due[..|due|] == due;
    forall c | c in l.state.certs && IsDue(c, t0) ensures LeftActive(c, ports, rcfg, deferred, shortfall) {
      WhyLeft(l.config, s0, l.state, t0, scanned, c, ports, rcfg, budget);
    }
  }

  predicate PrefixQuoted(qs: seq<Quote>, due: seq<Cert>, i: nat) { i <= |due| && AllQuoted(qs, due[..i]) }

  lemma QuotedAt(qs: seq<Quote>, due: seq<Cert>, i: nat)
    requires AllQuoted(qs, due) && i < |due|
    ensures Quoted(qs, due[i]) && PrefixQuoted(qs, due, i) && PrefixQuoted(qs, due, i + 1)
  {
  }

  lemma WalkStart(cfg: Config, qs: seq<Quote>, ports: Ports, rcfg: RunnerConfig, budget: int, due: seq<Cert>)
    requires AllQuoted(qs, due)
    ensures PrefixQuoted(qs, due, 0) && WalkAll(cfg, qs, ports, rcfg, budget, due[..0]) == Walk(budget, [], [], None, None)
  {
  }

  /** A walk that has stopped goes no further. */
  lemma {:induction false} WalkKeepsStop(cfg: Config, qs: seq<Quote>, ports: Ports, rcfg: RunnerConfig, budget: int,
                                         due: seq<Cert>, i: nat)
    requires AllQuoted(qs, due) && i <= |due|
    ensures WalkAll(cfg, qs, ports, rcfg, budget, due[..i]).stopped.Some? ==>
              WalkAll(cfg, qs, ports, rcfg, budget, due) == WalkAll(cfg, qs, ports, rcfg, budget, due[..i])
    decreases |due| - i
  {
    if i == |due| {
      assert due[..i] == due;
    } else {
      WalkNext(cfg, qs, ports, rcfg, budget, due, i);
      WalkKeepsStop(cfg, qs, ports, rcfg, budget, due, i + 1);
    }
  }

  // ---- Step 4 ----

  /** Refunding one payment, as the sweep sees it: a refusal changes nothing. */
  method RefundOne(l: CertificateLedger, i: nat) returns (r: Option<Payout>)
    requires l.Valid() && i < |l.state.payments| && !l.state.payments[i].matched
    modifies l.Repr, l.clock
    ensures l.Valid() && l.Repr == old(l.Repr) && l.clock.last >= old(l.clock.last)
    ensures r == None ==> l.state == old(l.state) && l.events == old(l.events)
                          && !Refundable(l.state, l.clock.last, l.state.payments[i].terms)
    ensures r.Some? ==>
      && Refundable(old(l.state), l.clock.last, old(l.state).payments[i].terms)
      && r.value == Payout(ForRefund, old(l.state).payments[i].terms.txSignature,
                           old(l.state).payments[i].terms.sender, old(l.state).payments[i].terms.amount)
      && l.state == WithRefund(old(l.state), i)
      && |l.events| == |old(l.events)| + 1 && Continues(old(l.events), l.events)
      && Owes(l.events[|old(l.events)|], r.value) && RightParty(l.state, r.value)
  {
    hide CertificateLedger.Valid, RefundOutcome, Inv, Owes, RightParty, Refundable;
    LedgerFacts(l);
    PaymentsAligned(l);
    ghost var before, s := l.events, l.state;
    var tx := l.payments[i].terms.txSignature;
    var res := l.RefundPayment(tx);
    ghost var added :| RefundOutcome(s, tx, l.clock.last, l.state, added, res) && l.events == before + added;
    RefundAnswer(l.config, s, i, l.clock.last, l.state, added, res);
    if res.Err? { return None; }
    var (amount, to) := res.value;
    r := Some(Payout(ForRefund, tx, to, amount));
  }

  /** What refundPayment answers for an unmatched payment. */
  lemma RefundAnswer(cfg: Config, s: State, i: nat, now: int, s': State, added: seq<Event>,
                     r: Result<(int, Key), LedgerError>)
    requires PaymentsKeyed(s.payments) && i < |s.payments| && !s.payments[i].matched
    requires RefundOutcome(s, s.payments[i].terms.txSignature, now, s', added, r)
    ensures var p := s.payments[i].terms;
      if Refundable(s, now, p) then
        && r == Ok((p.amount, p.sender)) && s' == WithRefund(s, i) && |added| == 1
        && var payout := Payout(ForRefund, p.txSignature, p.sender, p.amount);
           Owes(added[0], payout) && RightParty(s', payout)
      else r.Err? && s' == s && added == []
  {
    assert PaymentByTx(s.payments, s.payments[i].terms.txSignature) == i;
    if r.Ok? {
      PaymentIndexKept(s.payments, s'.payments, s.payments[i].terms.txSignature);
    }
  }

  /** Payment k needs no further sweep: spent, dust, or still matchable when it was visited. */
  ghost predicate Swept(s: State, p: Payment, minRefund: int, now: int) {
    p.matched || p.terms.amount < minRefund || !Refundable(s, now, p.terms)
  }

  /** Step 4: refund every unmatched payment that is not dust and can no longer activate. */
  method RefundPhase(l: CertificateLedger, rcfg: RunnerConfig)
    returns (pending: seq<Payout>, dust: seq<Key>)
    requires l.Valid()
    modifies l.Repr, l.clock
    ensures l.Valid() && l.Repr == old(l.Repr) && l.clock.last >= old(l.clock.last)
    ensures Continues(old(l.events), l.events)
    ensures SameTerms(old(l.state), l.state) && l.state.certs == old(l.state).certs
    ensures Pays(l.state, l.events[|old(l.events)|..], pending) && |l.events| == |old(l.events)| + |pending|
    ensures forall k :: 0 <= k < |pending| ==> pending[k].kind == ForRefund
    ensures SweepTotal(old(l.state), rcfg.minRefund, old(l.clock.last)) <= Owed(pending)
            <= SweepTotal(old(l.state), rcfg.minRefund, l.clock.last)
    ensures forall k :: 0 <= k < |l.state.payments| ==>
      Swept(l.state, l.state.payments[k], rcfg.minRefund, old(l.clock.last))
    ensures DustUpTo(l.state.payments, |l.state.payments|, rcfg.minRefund, dust)
  {
    hide CertificateLedger.Valid, Pays, Owes, RightParty, DustUpTo, SameTerms, Swept, WithRefund, SweptUpTo, Taken, Inv,
      PaymentsKeyed, SweepTotal, SweepOf, Refundable, Owed;
    ghost var start, s0, t0 := l.events, l.state, l.clock.last;
    pending, dust := [], [];
    NothingSettledYet(l.state, l.events);
    var n := |l.payments|;
    PaymentsAligned(l);
    SweepStart(s0, rcfg.minRefund, t0);
    for i := 0 to n
      invariant l.Valid() && l.Repr == old(l.Repr) && l.clock.last >= t0
      invariant Continues(start, l.events) && n == |s0.payments| == |l.state.payments|
      invariant SameTerms(s0, l.state) && l.state.certs == s0.certs
      invariant Pays(l.state, l.events[|start|..], pending) && |l.events| == |start| + |pending|
      invariant forall k :: 0 <= k < |pending| ==> pending[k].kind == ForRefund
      invariant DustUpTo(l.state.payments, i, rcfg.minRefund, dust)
      invariant SweptUpTo(l.state, i, rcfg.minRefund, t0)
      invariant Taken(s0, l.state, i, rcfg.minRefund, t0, l.clock.last, pending)
    {
      PaymentsAligned(l);
      LedgerFacts(l);
      DustNext(l.state.payments, i, rcfg.minRefund, dust);
      SweptNext(l.state, i, rcfg.minRefund, t0);
      TakenSame(s0, l.state, i, rcfg.minRefund, t0, l.clock.last);
      if l.payments[i].matched {
        NotTaken(s0, l.state, i, rcfg.minRefund, t0, l.clock.last, l.clock.last, pending);
        continue;
      }
      if l.payments[i].terms.amount < rcfg.minRefund {
        NotTaken(s0, l.state, i, rcfg.minRefund, t0, l.clock.last, l.clock.last, pending);
        dust := dust + [l.payments[i].terms.txSignature];
        continue;
      }
      ghost var before, s, t, p0 := l.events, l.state, l.clock.last, pending;
      var refund := RefundOne(l, i);
      if refund.Some? {
        RefundedFrom(s0, s, i, rcfg.minRefund, t0, l.state);
        SettledSegment(s, start, before, pending, l.events, refund.value, l.state);
        DustKept(s.payments, i, rcfg.minRefund, dust, l.state.payments);
        TakenNow(s0, s, i, rcfg.minRefund, t0, t, l.clock.last, pending, refund.value, l.state);
        pending := pending + [refund.value];
      } else {
        NotRefundableBefore(s, t0, l.clock.last, s.payments[i].terms);
        NotTaken(s0, s, i, rcfg.minRefund, t0, t, l.clock.last, pending);
      }
    }
    AllSwept(l.state, rcfg.minRefund, t0);
    TakenAll(s0, l.state, rcfg.minRefund, t0, l.clock.last, pending);
  }

  /**
   * After i payments: the rest are untouched, and what was taken lies between what a sweep at the start
   * and one now would take from those i.
   */
  ghost predicate Taken(s0: State, s: State, i: nat, minRefund: int, t0: int, t: int, pending: seq<Payout>) {
    && i <= |s0.payments| == |s.payments| && s.quotes == s0.quotes
    && (forall k :: i <= k < |s.payments| ==> s.payments[k] == s0.payments[k])
    && Sum(s0.payments[..i], SweepOf(s0, minRefund, t0)) <= Owed(pending) <= Sum(s0.payments[..i], SweepOf(s0, minRefund, t))
  }

  lemma SweepStart(s: State, minRefund: int, now: int)
    ensures DustUpTo(s.payments, 0, minRefund, []) && SweptUpTo(s, 0, minRefund, now)
    ensures Taken(s, s, 0, minRefund, now, now, [])
  {
    assert s.payments[..0] == [];
  }

  lemma TakenSame(s0: State, s: State, i: nat, minRefund: int, t0: int, t: int)
    requires i < |s0.payments|
    ensures s0.payments[..i + 1] == s0.payments[..i] + [s0.payments[i]]
    ensures forall now :: Sum(s0.payments[..i + 1], SweepOf(s0, minRefund, now))
                       == Sum(s0.payments[..i], SweepOf(s0, minRefund, now)) + SweepOf(s0, minRefund, now)(s0.payments[i])
  {
    hide Sum;
    assert s0.payments[..i + 1] == s0.payments[..i] + [s0.payments[i]];
    forall now ensures Sum(s0.payments[..i + 1], SweepOf(s0, minRefund, now))
                    == Sum(s0.payments[..i], SweepOf(s0, minRefund, now)) + SweepOf(s0, minRefund, now)(s0.payments[i])
    {
      SumAppend(s0.payments[..i], s0.payments[i], SweepOf(s0, minRefund, now));
    }
  }

  lemma LaterSweep(s0: State, i: nat, minRefund: int, t: int, t': int)
    requires t <= t' && i <= |s0.payments|
    ensures Sum(s0.payments[..i], SweepOf(s0, minRefund, t)) <= Sum(s0.payments[..i], SweepOf(s0, minRefund, t'))
  {
    forall k | 0 <= k < i
      ensures SweepOf(s0, minRefund, t)(s0.payments[..i][k]) <= SweepOf(s0, minRefund, t')(s0.payments[..i][k])
    {
      SweepOfGrows(s0, minRefund, t, t', s0.payments[..i][k]);
    }
    SumAtMost(s0.payments[..i], SweepOf(s0, minRefund, t), SweepOf(s0, minRefund, t'));
  }

  lemma NotTaken(s0: State, s: State, i: nat, minRefund: int, t0: int, t: int, t': int, pending: seq<Payout>)
    requires Taken(s0, s, i, minRefund, t0, t, pending) && i < |s.payments| && t <= t'
    requires s.payments[i].matched || s.payments[i].terms.amount < minRefund || !Refundable(s, t0, s.payments[i].terms)
    ensures Taken(s0, s, i + 1, minRefund, t0, t', pending)
  {
    hide Sum, Refundable;
    TakenSame(s0, s, i, minRefund, t0, t);
    LaterSweep(s0, i, minRefund, t, t');
    SameRefundable(s0, s, t0, s0.payments[i].terms);
    SweepOfGrows(s0, minRefund, t', t', s0.payments[i]);
  }

  lemma SameRefundable(s0: State, s: State, now: int, p: PaymentTerms)
    requires s.quotes == s0.quotes
    ensures Refundable(s, now, p) == Refundable(s0, now, p)
  {
  }

  lemma TakenNow(s0: State, s: State, i: nat, minRefund: int, t0: int, t: int, t': int, pending: seq<Payout>, p: Payout,
                 s': State)
    requires Taken(s0, s, i, minRefund, t0, t, pending) && i < |s.payments| && t0 <= t <= t'
    requires !s.payments[i].matched && s.payments[i].terms.amount >= minRefund && Refundable(s, t', s.payments[i].terms)
    requires p.amount == s.payments[i].terms.amount && s' == WithRefund(s, i)
    ensures Taken(s0, s', i + 1, minRefund, t0, t', pending + [p])
  {
    hide Sum, Refundable;
    TakenSame(s0, s, i, minRefund, t0, t);
    LaterSweep(s0, i, minRefund, t, t');
    SameRefundable(s0, s, t', s0.payments[i].terms);
    SumAppend(pending, p, AmountDue);
  }

  lemma TakenAll(s0: State, s: State, minRefund: int, t0: int, t: int, pending: seq<Payout>)
    requires Taken(s0, s, |s0.payments|, minRefund, t0, t, pending)
    ensures SweepTotal(s0, minRefund, t0) <= Owed(pending) <= SweepTotal(s0, minRefund, t)
  {
    assert s0.payments[..|s0.payments|] == s0.payments;
  }

  lemma AllSwept(s: State, minRefund: int, now: int)
    requires SweptUpTo(s, |s.payments|, minRefund, now)
    ensures forall k :: 0 <= k < |s.payments| ==> Swept(s, s.payments[k], minRefund, now)
  {
  }

  ghost predicate SweptUpTo(s: State, i: nat, minRefund: int, now: int) {
    i <= |s.payments| && forall k :: 0 <= k < i ==> Swept(s, s.payments[k], minRefund, now)
  }

  lemma SweptNext(s: State, i: nat, minRefund: int, now: int)
    requires i < |s.payments| && SweptUpTo(s, i, minRefund, now)
    ensures s.payments[i].matched || s.payments[i].terms.amount < minRefund || !Refundable(s, now, s.payments[i].terms)
            ==> SweptUpTo(s, i + 1, minRefund, now)
  {
  }

  lemma NotRefundableBefore(s: State, now: int, later: int, p: PaymentTerms)
    requires now <= later && !Refundable(s, later, p)
    ensures !Refundable(s, now, p)
  {
    if Refundable(s, now, p) {
      StaleStaysStale(s, now, later, p);
    }
  }

  /** The ledger after one refund: the payment is spent, everything else stays. */
  lemma RefundedFrom(s0: State, s: State, i: nat, minRefund: int, now: int, s': State)
    requires i < |s.payments| && s' == WithRefund(s, i) && SameTerms(s0, s) && SweptUpTo(s, i, minRefund, now)
    ensures SameTerms(s, s') && SameTerms(s0, s') && s'.certs == s.certs
    ensures s'.payments == s.payments[i := s.payments[i].(matched := true)]
    ensures SweptUpTo(s', i + 1, minRefund, now)
  {
  }

  predicate IsDust(p: Payment, minRefund: int) { !p.matched && p.terms.amount < minRefund }

  /** The list names exactly the unmatched payments below the minimum among the first i. */
  ghost predicate DustUpTo(ps: seq<Payment>, i: nat, minRefund: int, dust: seq<Key>) {
    forall k :: 0 <= k < |ps| ==> (ps[k].terms.txSignature in dust <==> k < i && IsDust(ps[k], minRefund))
  }

  lemma DustNext(ps: seq<Payment>, i: nat, minRefund: int, dust: seq<Key>)
    requires PaymentsKeyed(ps) && i < |ps| && DustUpTo(ps, i, minRefund, dust)
    ensures DustUpTo(ps, i + 1, minRefund, if IsDust(ps[i], minRefund) then dust + [ps[i].terms.txSignature] else dust)
  {
  }

  /** Refunding a payment that is not dust leaves the list right. */
  lemma DustKept(ps: seq<Payment>, i: nat, minRefund: int, dust: seq<Key>, ps': seq<Payment>)
    requires i < |ps| && DustUpTo(ps, i + 1, minRefund, dust) && !IsDust(ps[i], minRefund)
    requires ps' == ps[i := ps[i].(matched := true)]
    ensures DustUpTo(ps', i + 1, minRefund, dust)
  {
  }

  lemma PaymentsAligned(l: CertificateLedger)
    requires l.Valid()
    ensures |l.payments| == |l.state.payments|
    ensures forall k :: 0 <= k < |l.payments| ==> l.payments[k].Value() == l.state.payments[k]
  {
  }

  // ---- Step 5 ----

  function Executed(ports: Ports, dryRun: bool, p: Payout): PayoutRecord {
    PayoutRecord(p, if dryRun || p.amount <= 0 then None else ports.pay(p))
  }

  function ExecutedAll(ports: Ports, dryRun: bool, ps: seq<Payout>): (rs: seq<PayoutRecord>)
    ensures |rs| == |ps| && forall k :: 0 <= k < |ps| ==> rs[k] == Executed(ports, dryRun, ps[k])
  {
    seq(|ps|, k requires 0 <= k < |ps| => Executed(ports, dryRun, ps[k]))
  }

  predicate PayoutFailed(dryRun: bool, r: PayoutRecord) {
    !dryRun && r.due.amount > 0 && r.executedTx == None
  }

  lemma PayNone(ports: Ports, dryRun: bool, ps: seq<Payout>)
    ensures ExecutedAll(ports, dryRun, ps[..0]) == [] && ToPay(ps[..0]) == []
  {
  }

  lemma ExecutedNext(ports: Ports, dryRun: bool, ps: seq<Payout>, i: nat)
    requires i < |ps|
    ensures ExecutedAll(ports, dryRun, ps[..i + 1]) == ExecutedAll(ports, dryRun, ps[..i]) + [Executed(ports, dryRun, ps[i])]
    ensures ToPay(ps[..i + 1]) == ToPay(ps[..i]) + (if ps[i].amount > 0 then [ps[i]] else [])
  {
    assert ps[..i + 1][..i] == ps[..i];
  }

  /** Step 5: each positive payout is executed once, in order; a failure is reported, not retried. */
  method PayPhase(ports: Ports, dryRun: bool, pending: seq<Payout>)
    returns (records: seq<PayoutRecord>, failed: seq<PayoutRecord>, calls: seq<Payout>)
    ensures records == ExecutedAll(ports, dryRun, pending)
    ensures calls == if dryRun then [] else ToPay(pending)
    ensures forall r :: r in failed <==> r in records && PayoutFailed(dryRun, r)
  {
    records, failed, calls := [], [], [];
    PayNone(ports, dryRun, pending);
    hide ExecutedAll, ToPay;
    for i := 0 to |pending|
      invariant records == ExecutedAll(ports, dryRun, pending[..i])
      invariant calls == if dryRun then [] else ToPay(pending[..i])
      invariant forall r :: r in failed <==> r in records && PayoutFailed(dryRun, r)
    {
      ExecutedNext(ports, dryRun, pending, i);
      var p := pending[i];
      var rec := PayoutRecord(p, None);
      if !dryRun && p.amount > 0 {
        var tx := ports.pay(p);
        calls := calls + [p];
        rec := rec.(executedTx := tx);
        if tx == None { failed := failed + [rec]; }
      }
      records := records + [rec];
    }
    assert pending[..|pending|] == pending;
  }

  // ---- The whole cycle ----

  lemma {:induction false} AllPayouts(es: seq<Event>)
    ensures |PayoutEvents(es)| <= |es|
    ensures |PayoutEvents(es)| == |es| ==> Sum(es, CreditOf) == 0 && Sum(es, LapseOf) == 0 && ActivatedIn(es) == []
  {
    if es != [] {
      AllPayouts(es[..|es| - 1]);
    }
  }

  /** What was observed, lapsed and activated, all in the opening part of the cycle's events. */
  lemma WholeTally(start: seq<Event>, a: seq<Event>, b: seq<Event>, c: seq<Event>, s1: State, s2: State,
                   settlements: seq<Payout>, refunds: seq<Payout>)
    requires Continues(start, a) && Continues(a, b) && Continues(b, c)
    requires Pays(s1, b[|a|..], settlements) && |b| == |a| + |settlements|
    requires Pays(s2, c[|b|..], refunds) && |c| == |b| + |refunds|
    ensures Sum(c[|start|..], CreditOf) == Sum(a[|start|..], CreditOf)
    ensures Sum(c[|start|..], LapseOf) == Sum(a[|start|..], LapseOf)
    ensures ActivatedIn(c[|start|..]) == ActivatedIn(a[|start|..])
  {
    hide PayoutEvents, RightParty, Owes, Sum, ActivatedIn;
    var x, y, z := a[|start|..], b[|a|..], c[|b|..];
    assert c[|start|..] == (x + y) + z;
    AllPayouts(y);
    AllPayouts(z);
    SumConcat(x, y, CreditOf);
    SumConcat(x + y, z, CreditOf);
    SumConcat(x, y, LapseOf);
    SumConcat(x + y, z, LapseOf);
    ActivatedInConcat(x, y);
    ActivatedInConcat(x + y, z);
  }

  function Dues(rs: seq<PayoutRecord>): (ps: seq<Payout>)
    ensures |ps| == |rs| && forall k :: 0 <= k < |rs| ==> ps[k] == rs[k].due
  {
    seq(|rs|, k requires 0 <= k < |rs| => rs[k].due)
  }

  /** One payout record per settlement and refund the cycle logged, settlements first, each paid once. */
  ghost predicate PayoutsMade(ports: Ports, rcfg: RunnerConfig, added: seq<Event>, s: State, report: CycleReport,
                              calls: seq<Payout>)
  {
    var settled, refunded := Dues(report.settled), Dues(report.refunded);
    && Pays(s, added, settled + refunded)
    && (forall k :: 0 <= k < |settled| ==> settled[k].kind == ForSettlement)
    && (forall k :: 0 <= k < |refunded| ==> refunded[k].kind == ForRefund)
    && report.settled == ExecutedAll(ports, rcfg.dryRun, settled)
    && report.refunded == ExecutedAll(ports, rcfg.dryRun, refunded)
    && calls == (if rcfg.dryRun then [] else ToPay(settled + refunded))
    && (forall r :: r in report.failed <==> r in report.settled + report.refunded && PayoutFailed(rcfg.dryRun, r))
  }

  /** Every due certificate still active and every payment still unspent has its reason in the report. */
  ghost predicate LeftOver(ports: Ports, rcfg: RunnerConfig, s: State, began: int, report: CycleReport) {
    && (forall c :: c in s.certs && IsDue(c, began) ==> LeftActive(c, ports, rcfg, report.deferred, report.shortfall))
    && (forall k :: 0 <= k < |s.payments| ==> Swept(s, s.payments[k], rcfg.minRefund, began))
    && DustUpTo(s.payments, |s.payments|, rcfg.minRefund, report.dustSkipped)
  }

  ghost predicate Counted(added: seq<Event>, report: CycleReport) {
    && report.observed == Sum(added, CreditOf)
    && report.lapsed == Sum(added, LapseOf)
    && report.activated == ActivatedIn(added)
  }

  /** What one completed cycle did to the ledger and owes to whom. */
  ghost predicate CycleOutcome(ports: Ports, rcfg: RunnerConfig, added: seq<Event>, s: State, began: int,
                               report: CycleReport, calls: seq<Payout>)
    requires ports.scan.Answered?
  {
    && report.cursor == ports.scan.value.cursor
    && Counted(added, report)
    && PayoutsMade(ports, rcfg, added, s, report, calls)
    && LeftOver(ports, rcfg, s, began, report)
    && report.invariantsOk
  }

  /** The cycle gets as far as its settlements. */
  ghost predicate Begins(ports: Ports) {
    && ports.scan.Answered?
    && (forall k :: 0 <= k < |ports.scan.value.transfers| ==> ports.scan.value.transfers[k].amount >= 0)
    && ports.balance.Answered?
  }

  /** What a cycle that cannot begin throws. */
  function StartError(ports: Ports): Abort {
    if ports.scan.Answered? && exists k :: 0 <= k < |ports.scan.value.transfers| && ports.scan.value.transfers[k].amount < 0
      then BadTransfer
    else PortThrew
  }

  function Budget(ports: Ports, rcfg: RunnerConfig): int
    requires ports.balance.Answered?
  {
    Min(ports.balance.value, rcfg.floatCap)
  }

  /** The ledger's state when settlement began, and the walk over what was due then. */
  ghost predicate Foreseen(lcfg: Config, ports: Ports, rcfg: RunnerConfig, log: seq<Event>, mid: nat, scanned: int,
                           s1: State, w: Walk)
  {
    && ports.balance.Answered? && mid <= |log|
    && Replay(log[..mid]) == Ok(s1)
    && AllQuoted(s1.quotes, Due(s1.certs, scanned))
    && w == WalkAll(lcfg, s1.quotes, ports, rcfg, Budget(ports, rcfg), Due(s1.certs, scanned))
  }

  /** A cycle that stopped: what the walk had settled is in the log, in the name of nobody it will be paid to. */
  ghost predicate Stranded(log: seq<Event>, mid: nat, s: State, w: Walk, error: Abort) {
    && mid <= |log| && w.stopped == Some(error)
    && Pays(s, log[mid..], w.paid) && |log| == mid + |w.paid|
  }

  /** A cycle that completed: the walk is its report, and the refunds are what a sweep takes. */
  ghost predicate Completed(rcfg: RunnerConfig, s1: State, scanned: int, ended: int, w: Walk, report: CycleReport) {
    && w.stopped == None
    && Dues(report.settled) == w.paid && report.deferred == w.deferred && report.shortfall == w.shortfall
    && SweepTotal(s1, rcfg.minRefund, scanned) <= Owed(Dues(report.refunded)) <= SweepTotal(s1, rcfg.minRefund, ended)
  }

  /**
   * How a cycle went: the ledger it found, how far its scan was taken and at what times, when quotes were
   * lapsed, where in the log settlement began, when the due certificates were scanned, the ledger then, and
   * the walk over them.
   */
  datatype Course = Course(s0: State, taken: nat, ms: seq<Moment>, lapsedAt: int, mid: nat, scanned: int, s1: State, w: Walk)

  /** Whatever was scanned is taken in as the intake says, and then every stale quote lapses. */
  ghost predicate Opens(lcfg: Config, ports: Ports, before: seq<Event>, after: seq<Event>, began: int, c: Course)
    requires ports.scan.Answered?
  {
    var ts := ports.scan.value.transfers;
    && Replay(before) == Ok(c.s0) && |before| <= c.mid <= |after|
    && Scanned(ts, c.taken < |ts|, c.taken) && Takeable(ts[..c.taken], c.ms) && Clocked(c.ms, began, c.lapsedAt)
    && Followed(lcfg, ports.checkpointOf, before, c.s0, ts, c.ms, c.taken)
    && var x := OpeningOf(lcfg, ports.checkpointOf, c.s0, ts, c.taken, c.ms, c.lapsedAt);
       after[|before|..c.mid] == x.log && c.s1 == x.state
  }

  /** The report says what the opening did. */
  ghost predicate Reported(lcfg: Config, ports: Ports, before: seq<Event>, after: seq<Event>, began: int, c: Course,
                           report: CycleReport)
  {
    && ports.scan.Answered? && Opens(lcfg, ports, before, after, began, c)
    && var ts := ports.scan.value.transfers;
       var x := TakeAll(lcfg, ports.checkpointOf, c.s0, ts[..c.taken], c.ms);
       report.observed == x.observed && report.activated == x.activated
       && report.lapsed == |LapseEvents(x.state.quotes, c.lapsedAt)|
  }

  /**
   * One cycle, whatever the ports answer. It takes in what it scanned. It ends early exactly when it cannot
   * begin to settle or its walk stops; then nothing is paid, and what the walk had settled is stranded.
   * Otherwise it completes.
   */
  ghost predicate CycleOf(lcfg: Config, ports: Ports, rcfg: RunnerConfig, before: seq<Event>, after: seq<Event>,
                          s: State, began: int, ended: int, c: Course, r: Result<CycleReport, Abort>, calls: seq<Payout>)
  {
    && Continues(before, after) && |before| <= c.mid <= |after| && Quiet(after[|before|..c.mid])
    && (if ports.scan.Threw? then after == before else Opens(lcfg, ports, before, after, began, c))
    && (r.Err? <==> !Begins(ports) || c.w.stopped.Some?)
    && (r.Err? ==> calls == [])
    && (!Begins(ports) ==> c.mid == |after| && r == Err(StartError(ports)))
    && (Begins(ports) ==>
          && began <= c.lapsedAt <= c.scanned <= ended
          && Foreseen(lcfg, ports, rcfg, after, c.mid, c.scanned, c.s1, c.w)
          && (r.Err? ==> Stranded(after, c.mid, s, c.w, r.error))
          && (r.Ok? ==> && Reported(lcfg, ports, before, after, began, c, r.value)
                        && Completed(rcfg, c.s1, c.scanned, ended, c.w, r.value)
                        && CycleOutcome(ports, rcfg, after[|before|..], s, began, r.value, calls)))
  }

  lemma SplitRecords(ports: Ports, dryRun: bool, settlements: seq<Payout>, refunds: seq<Payout>, rs: seq<PayoutRecord>)
    requires rs == ExecutedAll(ports, dryRun, settlements + refunds)
    ensures var n := |settlements|;
      && Dues(rs[..n]) == settlements && Dues(rs[n..]) == refunds
      && rs[..n] == ExecutedAll(ports, dryRun, settlements) && rs[n..] == ExecutedAll(ports, dryRun, refunds)
  {
    var n := |settlements|;
    assert forall k :: 0 <= k < |rs| ==> rs[k].due == (settlements + refunds)[k];
    assert Dues(rs[..n]) == settlements;
    assert Dues(rs[n..]) == refunds;
  }

  /** What the later phases established holds for the moment the cycle began. */
  lemma SinceTheStart(s: State, s3: State, t0: int, t2: int, t3: int, ports: Ports, rcfg: RunnerConfig, r: CycleReport)
    requires t0 <= t2 <= t3 && s.certs == s3.certs
    requires forall c :: c in s3.certs && IsDue(c, t2) ==> LeftActive(c, ports, rcfg, r.deferred, r.shortfall)
    requires forall k :: 0 <= k < |s.payments| ==> Swept(s, s.payments[k], rcfg.minRefund, t3)
    requires DustUpTo(s.payments, |s.payments|, rcfg.minRefund, r.dustSkipped)
    ensures LeftOver(ports, rcfg, s, t0, r)
  {
    hide LeftActive, DustUpTo;
    forall k | 0 <= k < |s.payments| ensures Swept(s, s.payments[k], rcfg.minRefund, t0) {
      assert Swept(s, s.payments[k], rcfg.minRefund, t3);
      if Refundable(s, t0, s.payments[k].terms) {
        StaleStaysStale(s, t0, t3, s.payments[k].terms);
      }
    }
  }

  /** The monitor's check, which always passes. */
  method Monitor(l: CertificateLedger) returns (failures: seq<Failure>)
    requires l.Valid()
    ensures failures == []
  {
    LedgerFacts(l);
    InvImpliesChecks(l.config, l.state, l.clock.last);
    failures := CheckInvariants(l.Value());
  }

  /** The state the log of a ledger leads to, for any log that continues it. */
  lemma ReplaysTo(l: CertificateLedger, log: seq<Event>)
    requires l.Valid() && Continues(l.events, log)
    ensures Replay(log[..|l.events|]) == Ok(l.state)
  {
    hide Replay;
    ReplayWholeLog(l.config, l.history, l.events);
  }

  /** The walk of a cycle that does not get to settle anything. */
  const NO_WALK: Walk := Walk(0, [], [], None, None)

  /**
   * One cycle. Besides the report it shows (in a ghost result) how it went.
   */
  method RunSettlementCycle(l: CertificateLedger, ports: Ports, rcfg: RunnerConfig, cursor: Option<Key>)
    returns (r: Result<CycleReport, Abort>, calls: seq<Payout>, ghost c: Course)
    requires l.Valid()
    modifies l.Repr, l.clock
    ensures l.Valid() && fresh(l.Repr - old(l.Repr)) && l.clock.last >= old(l.clock.last)
    ensures CycleOf(l.config, ports, rcfg, old(l.events), l.events, l.state, old(l.clock.last), l.clock.last, c, r, calls)
  {
    hide CertificateLedger.Valid, Pays, SameTerms, LeftActive, Swept, Sum, ActivatedIn, Inv, ToPay, Executed,
         DustUpTo, PayoutFailed, CycleOutcome, ExecutedAll, Tally, WalkAll, Replay, AllQuoted, Due, Begins, SweepTotal,
         StartError, Quiet, PayoutsMade, LeftOver, Counted, History, PaymentsKeyed, IsDue, Owed, Min, TakeAll, OpeningOf,
         Opens, Reported, CycleOf, Scanned, Followed, Clocked, Takeable, LapseAll, LapseEvents, Completed, Foreseen, Stranded;
    calls := [];
    ghost var start, s0, t0 := l.events, l.state, l.clock.last;
    c := Course(s0, 0, [], t0, |l.events|, t0, s0, NO_WALK);
    ReplaysTo(l, start);
    assert start[..|start|] == start;
    if ports.scan.Threw? {
      ScanFailed(l.config, ports, rcfg, start, s0, t0, c);
      return Err(PortThrew), [], c;
    }
    var scan := ports.scan.value;
    var aborted, observed, activated;
    ghost var taken, ms;
    aborted, observed, activated, taken, ms := ObservePhase(l, ports, scan.transfers);
    ghost var x := Intake(l.state, l.events[|start|..], observed, activated);
    if aborted {
      c := Course(s0, taken, ms, l.clock.last, |l.events|, t0, l.state, NO_WALK);
      BadScan(l.config, ports, rcfg, start, l.events, s0, l.state, t0, l.clock.last, c, x);
      return Err(BadTransfer), [], c;
    }
    ghost var e1 := l.events;
    var lapsed := LapsePhase(l);
    ghost var e2, s1, lapsedAt := l.events, l.state, l.clock.last;
    c := Course(s0, taken, ms, lapsedAt, |e2|, lapsedAt, s1, NO_WALK);
    Opened(l.config, ports, start, e1, e2, t0, c, x, lapsed);
    if ports.balance.Threw? {
      NoBalance(l.config, ports, rcfg, start, e2, s1, t0, lapsedAt, c);
      return Err(PortThrew), [], c;
    }
    MayBegin(ports, taken);
    var budget := Min(ports.balance.value, rcfg.floatCap);
    ReplaysTo(l, e2);
    var abort, settlements, deferred, shortfall;
    ghost var scanned;
    abort, settlements, deferred, shortfall, scanned := SettlePhase(l, ports, rcfg, budget);
    ghost var left :| Walk(left, settlements, deferred, shortfall, abort)
                      == WalkAll(l.config, s1.quotes, ports, rcfg, budget, Due(s1.certs, scanned));
    ghost var w := Walk(left, settlements, deferred, shortfall, abort);
    c := c.(scanned := scanned, w := w);
    ForeseenIs(l.config, ports, rcfg, e2, l.events, budget, c);
    OpensStill(l.config, ports, start, e2, l.events, t0, lapsedAt, c);
    if abort.Some? {
      WalkStopped(l.config, ports, rcfg, start, e2, l.events, l.state, t0, l.clock.last, c, abort.value);
      return Err(abort.value), [], c;
    }
    ghost var e3, s3, t3 := l.events, l.state, l.clock.last;
    WalkWithinBudget(l.config, s1.quotes, ports, rcfg, budget, Due(s1.certs, scanned)) by { LedgerFacts(l); }
    var refunds, dust := RefundPhase(l, rcfg);
    var records, failed, paid := PayPhase(ports, rcfg.dryRun, settlements + refunds);
    calls := paid;
    var failures := Monitor(l);
    r := Ok(CycleReport(observed, activated, lapsed, records[..|settlements|], records[|settlements|..], deferred,
                        failed, shortfall, dust, scan.cursor, failures == []));
    Assemble(ports, rcfg, start, e2, e3, l.events, s3, l.state, t0, lapsedAt, t3, settlements, refunds, records, r.value);
    SweepBounds(s1, s3, rcfg.minRefund, scanned, t3, l.clock.last, Owed(refunds));
    SplitRecords(ports, rcfg.dryRun, settlements, refunds, records);
    CompletedIs(rcfg, s1, scanned, l.clock.last, w, r.value);
    ForeseenIs(l.config, ports, rcfg, e2, l.events, budget, c);
    OpensStill(l.config, ports, start, e2, l.events, t0, lapsedAt, c);
    ReportedIs(l.config, ports, start, l.events, t0, c, x, r.value);
    Done(l.config, ports, rcfg, start, l.events, l.state, t0, l.clock.last, c, r.value, calls);
  }

  // ---- The ends of a cycle ----

  lemma ScanFailed(lcfg: Config, ports: Ports, rcfg: RunnerConfig, log: seq<Event>, s: State, now: int, c: Course)
    requires ports.scan.Threw? && c.mid == |log| && c.w.stopped == None
    ensures CycleOf(lcfg, ports, rcfg, log, log, s, now, now, c, Err(PortThrew), [])
  {
    hide Begins;
    assert log[|log|..|log|] == [];
    assert !Begins(ports) by { CannotBegin(ports); }
  }

  lemma CannotBegin(ports: Ports)
    requires ports.scan.Threw? || ports.balance.Threw?
    ensures !Begins(ports)
  {
  }

  /** A negative amount ends the cycle with what came before it taken in. */
  lemma BadScan(lcfg: Config, ports: Ports, rcfg: RunnerConfig, before: seq<Event>, after: seq<Event>, s0: State,
                s: State, began: int, ended: int, c: Course, x: Intake)
    requires ports.scan.Answered? && Continues(before, after) && Replay(before) == Ok(s0)
    requires c == Course(s0, c.taken, c.ms, ended, |after|, began, s, NO_WALK)
    requires var ts := ports.scan.value.transfers;
      && Followed(lcfg, ports.checkpointOf, before, s0, ts, c.ms, c.taken)
      && Scanned(ts, true, c.taken) && Takeable(ts[..c.taken], c.ms) && Clocked(c.ms, began, ended)
      && x == TakeAll(lcfg, ports.checkpointOf, s0, ts[..c.taken], c.ms)
      && x.state == s && x.log == after[|before|..]
    ensures CycleOf(lcfg, ports, rcfg, before, after, s, began, ended, c, Err(BadTransfer), [])
  {
    hide Takeable, Clocked, TakeAll, Replay, Tally, Followed;
    var ts := ports.scan.value.transfers;
    assert after[|before|..c.mid] == after[|before|..];
    IntakeTally(lcfg, ports.checkpointOf, s0, ts[..c.taken], c.ms);
    TallyIsQuiet(x.log, x.observed, 0, x.activated);
    assert ts[c.taken].amount < 0;
  }

  /** Scan and lapsing together are the opening. */
  lemma Opened(lcfg: Config, ports: Ports, before: seq<Event>, mid: seq<Event>, after: seq<Event>, began: int, c: Course,
               x: Intake, lapsed: nat)
    requires ports.scan.Answered? && Continues(before, mid) && Replay(before) == Ok(c.s0)
    requires c.mid == |after| && after == mid + LapseEvents(x.state.quotes, c.lapsedAt)
    requires lapsed == |LapseEvents(x.state.quotes, c.lapsedAt)|
    requires exists t :: t <= c.lapsedAt && Clocked(c.ms, began, t)
    requires var ts := ports.scan.value.transfers;
      && Followed(lcfg, ports.checkpointOf, before, c.s0, ts, c.ms, c.taken)
      && Scanned(ts, false, c.taken) && Takeable(ts[..c.taken], c.ms)
      && x == TakeAll(lcfg, ports.checkpointOf, c.s0, ts[..c.taken], c.ms) && x.log == mid[|before|..]
    requires c.s1 == x.state.(quotes := LapseAll(x.state.quotes, c.lapsedAt))
    ensures Continues(before, after) && Opens(lcfg, ports, before, after, began, c)
    ensures Tally(after[|before|..], x.observed, lapsed, x.activated) && began <= c.lapsedAt
    ensures c.taken == |ports.scan.value.transfers|
  {
    hide Takeable, Clocked, TakeAll, Replay, Followed, LapseEvents, LapseAll, Tally, Scanned;
    var t :| t <= c.lapsedAt && Clocked(c.ms, began, t);
    ClockRuns(c.ms, began, t, c.lapsedAt);
    ClockedBounds(c.ms, began, c.lapsedAt);
    var ls := LapseEvents(x.state.quotes, c.lapsedAt);
    assert after[|before|..] == x.log + ls == after[|before|..c.mid];
    AllTaken(ports.scan.value.transfers, c.taken);
    var ts := ports.scan.value.transfers;
    IntakeTally(lcfg, ports.checkpointOf, c.s0, ts[..c.taken], c.ms);
    LapseTally(x.state.quotes, c.lapsedAt);
    TallyConcat(x.log, ls, x.observed, 0, x.activated, 0, |ls|, []);
    assert x.activated + [] == x.activated;
  }

  lemma ClockedBounds(ms: seq<Moment>, from: int, to: int)
    requires Clocked(ms, from, to)
    ensures from <= to
  {
  }

  lemma AllTaken(ts: seq<Transfer>, taken: nat)
    requires Scanned(ts, false, taken)
    ensures taken == |ts| && Scanned(ts, taken < |ts|, taken)
  {
  }

  lemma NoBalance(lcfg: Config, ports: Ports, rcfg: RunnerConfig, before: seq<Event>, after: seq<Event>, s: State,
                  began: int, ended: int, c: Course)
    requires ports.scan.Answered? && ports.balance.Threw? && Continues(before, after) && c.mid == |after|
    requires Opens(lcfg, ports, before, after, began, c) && c.w.stopped == None && c.taken == |ports.scan.value.transfers|
    requires exists observed, lapsed, activated :: Tally(after[|before|..], observed, lapsed, activated)
    ensures CycleOf(lcfg, ports, rcfg, before, after, s, began, ended, c, Err(PortThrew), [])
  {
    hide Takeable, Clocked, TakeAll, Replay, Tally, OpeningOf, Followed;
    var observed, lapsed, activated :| Tally(after[|before|..], observed, lapsed, activated);
    TallyIsQuiet(after[|before|..], observed, lapsed, activated);
    assert after[|before|..c.mid] == after[|before|..];
  }

  lemma MayBegin(ports: Ports, taken: nat)
    requires ports.scan.Answered? && ports.balance.Answered? && Scanned(ports.scan.value.transfers, false, taken)
    ensures Begins(ports)
  {
  }

  lemma ForeseenIs(lcfg: Config, ports: Ports, rcfg: RunnerConfig, mid: seq<Event>, after: seq<Event>, budget: int, c: Course)
    requires ports.balance.Answered? && budget == Min(ports.balance.value, rcfg.floatCap)
    requires Replay(mid[..|mid|]) == Ok(c.s1) && Continues(mid, after) && c.mid == |mid|
    requires AllQuoted(c.s1.quotes, Due(c.s1.certs, c.scanned))
    requires c.w == WalkAll(lcfg, c.s1.quotes, ports, rcfg, budget, Due(c.s1.certs, c.scanned))
    ensures Foreseen(lcfg, ports, rcfg, after, c.mid, c.scanned, c.s1, c.w)
  {
    hide Replay, AllQuoted, WalkAll, Due;
    assert mid[..|mid|] == mid == after[..|mid|];
  }

  /** What is appended later leaves the opening as it was. */
  lemma OpensStill(lcfg: Config, ports: Ports, before: seq<Event>, mid: seq<Event>, after: seq<Event>, began: int,
                   lapsedAt: int, c: Course)
    requires ports.scan.Answered? && Continues(before, mid) && Continues(mid, after) && c.mid == |mid|
    requires Opens(lcfg, ports, before, mid, began, c.(scanned := lapsedAt, w := NO_WALK))
    ensures Opens(lcfg, ports, before, after, began, c)
    ensures Continues(before, after) && after[|before|..c.mid] == mid[|before|..]
  {
    hide Replay, Takeable, Clocked, OpeningOf, Scanned, Followed;
    assert after[|before|..c.mid] == after[..|mid|][|before|..] == mid[|before|..] == mid[|before|..c.mid];
  }

  lemma WalkStopped(lcfg: Config, ports: Ports, rcfg: RunnerConfig, before: seq<Event>, mid: seq<Event>, after: seq<Event>,
                    s: State, began: int, ended: int, c: Course, error: Abort)
    requires Begins(ports) && Opens(lcfg, ports, before, after, began, c)
    requires Continues(before, mid) && Continues(mid, after) && Continues(before, after)
    requires c.mid == |mid| && after[|before|..c.mid] == mid[|before|..]
    requires exists observed, lapsed, activated :: Tally(mid[|before|..], observed, lapsed, activated)
    requires began <= c.lapsedAt <= c.scanned <= ended && Foreseen(lcfg, ports, rcfg, after, c.mid, c.scanned, c.s1, c.w)
    requires c.w.stopped == Some(error) && Pays(s, after[c.mid..], c.w.paid) && |after| == c.mid + |c.w.paid|
    ensures CycleOf(lcfg, ports, rcfg, before, after, s, began, ended, c, Err(error), [])
  {
    hide Begins, Opens, Foreseen, Pays, Tally;
    var observed, lapsed, activated :| Tally(mid[|before|..], observed, lapsed, activated);
    TallyIsQuiet(mid[|before|..], observed, lapsed, activated);
    BeginsMeans(ports);
    OpensInside(lcfg, ports, before, after, began, c);
  }

  lemma OpensInside(lcfg: Config, ports: Ports, before: seq<Event>, after: seq<Event>, began: int, c: Course)
    requires ports.scan.Answered? && Opens(lcfg, ports, before, after, began, c)
    ensures |before| <= c.mid <= |after|
  {
  }

  lemma BeginsMeans(ports: Ports)
    requires Begins(ports)
    ensures ports.scan.Answered? && ports.balance.Answered?
  {
  }

  lemma CompletedIs(rcfg: RunnerConfig, s1: State, scanned: int, ended: int, w: Walk, report: CycleReport)
    requires w.stopped == None && Dues(report.settled) == w.paid && report.deferred == w.deferred
    requires report.shortfall == w.shortfall
    requires SweepTotal(s1, rcfg.minRefund, scanned) <= Owed(Dues(report.refunded)) <= SweepTotal(s1, rcfg.minRefund, ended)
    ensures Completed(rcfg, s1, scanned, ended, w, report)
  {
  }

  lemma ReportedIs(lcfg: Config, ports: Ports, before: seq<Event>, after: seq<Event>, began: int, c: Course, x: Intake,
                   report: CycleReport)
    requires ports.scan.Answered? && Opens(lcfg, ports, before, after, began, c)
    requires c.taken == |ports.scan.value.transfers|
    requires Takeable(ports.scan.value.transfers[..c.taken], c.ms)
    requires x == TakeAll(lcfg, ports.checkpointOf, c.s0, ports.scan.value.transfers[..c.taken], c.ms)
    requires report.observed == x.observed && report.activated == x.activated
    requires report.lapsed == |LapseEvents(x.state.quotes, c.lapsedAt)|
    ensures Reported(lcfg, ports, before, after, began, c, report)
  {
    hide Replay, OpeningOf, TakeAll, Followed;
  }

  lemma Done(lcfg: Config, ports: Ports, rcfg: RunnerConfig, before: seq<Event>, after: seq<Event>, s: State, began: int,
             ended: int, c: Course, report: CycleReport, calls: seq<Payout>)
    requires Begins(ports) && ports.scan.Answered? && c.w.stopped == None && Continues(before, after)
    requires Reported(lcfg, ports, before, after, began, c, report) && |before| <= c.mid <= |after|
    requires exists observed, lapsed, activated :: Tally(after[|before|..c.mid], observed, lapsed, activated)
    requires began <= c.lapsedAt <= c.scanned <= ended && Foreseen(lcfg, ports, rcfg, after, c.mid, c.scanned, c.s1, c.w)
    requires Completed(rcfg, c.s1, c.scanned, ended, c.w, report)
    requires CycleOutcome(ports, rcfg, after[|before|..], s, began, report, calls)
    ensures CycleOf(lcfg, ports, rcfg, before, after, s, began, ended, c, Ok(report), calls)
  {
    hide Begins, Opens, Foreseen, Completed, CycleOutcome, Tally;
    var observed, lapsed, activated :| Tally(after[|before|..c.mid], observed, lapsed, activated);
    TallyIsQuiet(after[|before|..c.mid], observed, lapsed, activated);
  }

  lemma SweepBounds(s1: State, s3: State, minRefund: int, scanned: int, t3: int, ended: int, owed: int)
    requires s3.payments == s1.payments && s3.quotes == s1.quotes && scanned <= t3
    requires SweepTotal(s3, minRefund, t3) <= owed <= SweepTotal(s3, minRefund, ended)
    ensures SweepTotal(s1, minRefund, scanned) <= owed <= SweepTotal(s1, minRefund, ended)
  {
    hide SweepTotal;
    SweepGrows(s3, minRefund, scanned, t3);
    SweepUnmoved(s1, s3, minRefund, scanned);
    SweepUnmoved(s1, s3, minRefund, ended);
  }

  /** What the phases of a completed cycle established, put together. */
  lemma Assemble(ports: Ports, rcfg: RunnerConfig, start: seq<Event>, a: seq<Event>, b: seq<Event>, c: seq<Event>,
                 s3: State, s: State, t0: int, t2: int, t3: int, settlements: seq<Payout>, refunds: seq<Payout>,
                 records: seq<PayoutRecord>, r: CycleReport)
    requires ports.scan.Answered? && r.cursor == ports.scan.value.cursor && r.invariantsOk
    requires Continues(start, a) && Tally(a[|start|..], r.observed, r.lapsed, r.activated)
    requires Continues(a, b) && Pays(s3, b[|a|..], settlements) && |b| == |a| + |settlements|
    requires Continues(b, c) && Pays(s, c[|b|..], refunds) && |c| == |b| + |refunds| && SameTerms(s3, s)
    requires t0 <= t2 <= t3 && s.certs == s3.certs
    requires forall c :: c in s3.certs && IsDue(c, t2) ==> LeftActive(c, ports, rcfg, r.deferred, r.shortfall)
    requires forall k :: 0 <= k < |settlements| ==> settlements[k].kind == ForSettlement
    requires forall k :: 0 <= k < |refunds| ==> refunds[k].kind == ForRefund
    requires forall k :: 0 <= k < |s.payments| ==> Swept(s, s.payments[k], rcfg.minRefund, t3)
    requires DustUpTo(s.payments, |s.payments|, rcfg.minRefund, r.dustSkipped)
    requires records == ExecutedAll(ports, rcfg.dryRun, settlements + refunds)
    requires r.settled == records[..|settlements|] && r.refunded == records[|settlements|..]
    requires forall x :: x in r.failed <==> x in records && PayoutFailed(rcfg.dryRun, x)
    ensures CycleOutcome(ports, rcfg, c[|start|..], s, t0, r, if rcfg.dryRun then [] else ToPay(settlements + refunds))
  {
    assert |start| <= |c|;
    hide *;
    assert Counted(c[|start|..], r) by {
      WholeTally(start, a, b, c, s3, s, settlements, refunds);
      CountedFrom(a[|start|..], c[|start|..], r);
    }
    assert PayoutsMade(ports, rcfg, c[|start|..], s, r, if rcfg.dryRun then [] else ToPay(settlements + refunds)) by {
      TallyIsQuiet(a[|start|..], r.observed, r.lapsed, r.activated);
      WholeSegment(start, a, b, c, s3, s, settlements, refunds);
      AllPayoutsMade(ports, rcfg, c[|start|..], s, settlements, refunds, records, r);
    }
    SinceTheStart(s, s3, t0, t2, t3, ports, rcfg, r);
    Outcome(ports, rcfg, c[|start|..], s, t0, r, if rcfg.dryRun then [] else ToPay(settlements + refunds));
  }

  lemma CountedFrom(opening: seq<Event>, added: seq<Event>, r: CycleReport)
    requires Tally(opening, r.observed, r.lapsed, r.activated)
    requires Sum(added, CreditOf) == Sum(opening, CreditOf) && Sum(added, LapseOf) == Sum(opening, LapseOf)
    requires ActivatedIn(added) == ActivatedIn(opening)
    ensures Counted(added, r)
  {
    hide Sum, ActivatedIn;
  }

  lemma Outcome(ports: Ports, rcfg: RunnerConfig, added: seq<Event>, s: State, began: int, r: CycleReport,
                calls: seq<Payout>)
    requires ports.scan.Answered? && r.cursor == ports.scan.value.cursor && r.invariantsOk
    requires Counted(added, r) && PayoutsMade(ports, rcfg, added, s, r, calls) && LeftOver(ports, rcfg, s, began, r)
    ensures CycleOutcome(ports, rcfg, added, s, began, r, calls)
  {
    hide PayoutsMade, LeftOver, Counted;
  }

  lemma AllPayoutsMade(ports: Ports, rcfg: RunnerConfig, added: seq<Event>, s: State, settlements: seq<Payout>,
                       refunds: seq<Payout>, records: seq<PayoutRecord>, r: CycleReport)
    requires Pays(s, added, settlements + refunds)
    requires forall k :: 0 <= k < |settlements| ==> settlements[k].kind == ForSettlement
    requires forall k :: 0 <= k < |refunds| ==> refunds[k].kind == ForRefund
    requires records == ExecutedAll(ports, rcfg.dryRun, settlements + refunds)
    requires r.settled == records[..|settlements|] && r.refunded == records[|settlements|..]
    requires forall x :: x in r.failed <==> x in records && PayoutFailed(rcfg.dryRun, x)
    ensures PayoutsMade(ports, rcfg, added, s, r, if rcfg.dryRun then [] else ToPay(settlements + refunds))
  {
    hide Pays, ToPay, Executed, PayoutFailed, ExecutedAll, Dues;
    SplitRecords(ports, rcfg.dryRun, settlements, refunds, records);
    assert r.settled + r.refunded == records;
  }
}
