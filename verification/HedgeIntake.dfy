/**
 * What one cycle does with the payments it scans, as a function of the ledger, the scan and the clock:
 * credits, activations with their fee checkpoints, and then the lapsing of stale quotes.
 */
module HedgeIntake {
  import opened Outcomes
  import opened HedgeTypes
  import opened HedgeTransitions
  import opened HedgeScans
  import opened HedgeTrace
  import opened HedgePayouts
  import opened HedgeReplay
  import opened Sums

  /** When a transfer was observed, its activation tried, and the checkpoint of that activation recorded. */
  datatype Moment = Moment(seen: int, tried: int, noted: int)

  datatype Intake = Intake(state: State, log: seq<Event>, observed: int, activated: seq<Key>)

  type Checkpoints = Key -> Option<FeeCheckpoint>

  function TermsOf(t: Transfer, now: int): PaymentTerms
    requires t.amount >= 0
  {
    PaymentTerms(t.txSignature, t.referenceKey, t.sender, t.amount, now)
  }

  predicate KnownTx(s: State, tx: Key) { PaymentByTx(s.payments, tx) < |s.payments| }

  function Credited(s: State, p: PaymentTerms): State { WithPayment(s, Payment(p, false)) }

  /** A known signature changes nothing; a new one is credited, and activates if it may. */
  function Take(cfg: Config, checkpointOf: Checkpoints, x: Intake, t: Transfer, m: Moment): Intake
    requires t.amount >= 0
  {
    if KnownTx(x.state, t.txSignature) then x
    else
      var p := TermsOf(t, m.seen);
      var s, log := Credited(x.state, p), x.log + [PaymentObserved(m.seen, Payment(p, false))];
      if !Activates(cfg, s, m.tried, p) then Intake(s, log, x.observed + 1, x.activated)
      else
        var qi := QuoteByRef(s.quotes, t.referenceKey);
        var c := NewCert(cfg, m.tried, s.quotes[qi].terms);
        var s1, log1 := WithCert(s, qi, |x.state.payments|, c), log + [CertificateActivated(m.tried, c, t.txSignature)];
        var activated := x.activated + [c.terms.quoteId];
        match checkpointOf(c.terms.mint)
        case None => Intake(s1, log1, x.observed + 1, activated)
        case Some(cp) =>
          Intake(WithCheckpoint(s1, |x.state.certs|, cp), log1 + [FeeCheckpointRecorded(m.noted, c.terms.quoteId, cp)],
                 x.observed + 1, activated)
  }

  ghost predicate Takeable(ts: seq<Transfer>, ms: seq<Moment>) {
    |ts| <= |ms| && forall k :: 0 <= k < |ts| ==> ts[k].amount >= 0
  }

  ghost function TakeAll(cfg: Config, checkpointOf: Checkpoints, s: State, ts: seq<Transfer>, ms: seq<Moment>): Intake
    requires Takeable(ts, ms)
    decreases |ts|
  {
    if ts == [] then Intake(s, [], 0, [])
    else
      var n := |ts| - 1;
      Take(cfg, checkpointOf, TakeAll(cfg, checkpointOf, s, ts[..n], ms), ts[n], ms[n])
  }

  lemma {:induction false} MomentsToCome(cfg: Config, checkpointOf: Checkpoints, s: State, ts: seq<Transfer>,
                                         ms: seq<Moment>, more: seq<Moment>)
    requires Takeable(ts, ms)
    ensures Takeable(ts, ms + more)
    ensures TakeAll(cfg, checkpointOf, s, ts, ms + more) == TakeAll(cfg, checkpointOf, s, ts, ms)
  {
    if ts != [] {
      MomentsToCome(cfg, checkpointOf, s, ts[..|ts| - 1], ms, more);
    }
  }

  lemma TakeNext(cfg: Config, checkpointOf: Checkpoints, s: State, ts: seq<Transfer>, ms: seq<Moment>, i: nat)
    requires i < |ts| && Takeable(ts[..i + 1], ms)
    ensures Takeable(ts[..i], ms) && ts[i].amount >= 0
    ensures TakeAll(cfg, checkpointOf, s, ts[..i + 1], ms)
         == Take(cfg, checkpointOf, TakeAll(cfg, checkpointOf, s, ts[..i], ms), ts[i], ms[i])
  {
    assert ts[..i + 1][..i] == ts[..i] && ts[..i + 1][i] == ts[i];
    assert forall k :: 0 <= k < i ==> ts[..i][k] == ts[..i + 1][k];
  }

  // ---- One transfer ----

  /** Payments and certificates are only ever added, at the end. */
  ghost predicate Grown(x: Intake, y: Intake) {
    && x.state.payments <= y.state.payments && x.state.certs <= y.state.certs
    && x.activated <= y.activated && x.log <= y.log
  }

  lemma TakeGrows(cfg: Config, checkpointOf: Checkpoints, x: Intake, t: Transfer, m: Moment)
    requires t.amount >= 0
    ensures Grown(x, Take(cfg, checkpointOf, x, t, m))
  {
    hide Activates, NewCert, PaymentByTx, QuoteByRef;
  }

  lemma {:induction false} TakeAllGrows(cfg: Config, checkpointOf: Checkpoints, s: State, ts: seq<Transfer>,
                                        ms: seq<Moment>, k: nat)
    requires Takeable(ts, ms) && k <= |ts|
    ensures Takeable(ts[..k], ms)
    ensures Grown(TakeAll(cfg, checkpointOf, s, ts[..k], ms), TakeAll(cfg, checkpointOf, s, ts, ms))
    decreases |ts|
  {
    hide Take;
    if k == |ts| {
      assert ts[..k] == ts;
    } else {
      var n := |ts| - 1;
      TakeAllGrows(cfg, checkpointOf, s, ts[..n], ms, k);
      assert ts[..n][..k] == ts[..k];
      TakeGrows(cfg, checkpointOf, TakeAll(cfg, checkpointOf, s, ts[..n], ms), ts[n], ms[n]);
    }
  }

  lemma KnownByTerms(s: State, s': State, tx: Key)
    requires s.payments <= s'.payments && KnownTx(s, tx)
    ensures KnownTx(s', tx) && PaymentByTx(s'.payments, tx) == PaymentByTx(s.payments, tx)
  {
    var i, j := PaymentByTx(s.payments, tx), PaymentByTx(s'.payments, tx);
    assert s'.payments[i] == s.payments[i];
    assert j < |s.payments| ==> s.payments[j] == s'.payments[j];
  }

  /** A new signature: its payment is next, and is spent exactly when the guards let it activate. */
  lemma TakeNew(cfg: Config, checkpointOf: Checkpoints, x: Intake, t: Transfer, m: Moment)
    requires t.amount >= 0 && !KnownTx(x.state, t.txSignature)
    ensures var y, p := Take(cfg, checkpointOf, x, t, m), TermsOf(t, m.seen);
      && y.observed == x.observed + 1 && x.log + [PaymentObserved(m.seen, Payment(p, false))] <= y.log
      && y.state.payments == x.state.payments + [Payment(p, Activates(cfg, Credited(x.state, p), m.tried, p))]
      && KnownTx(y.state, t.txSignature) && PaymentByTx(y.state.payments, t.txSignature) == |x.state.payments|
    ensures var y, p := Take(cfg, checkpointOf, x, t, m), TermsOf(t, m.seen);
      if Activates(cfg, Credited(x.state, p), m.tried, p) then
        var c := NewCert(cfg, m.tried, x.state.quotes[QuoteByRef(x.state.quotes, t.referenceKey)].terms);
        && y.state.certs == x.state.certs + [c.(feeCheckpoint := checkpointOf(c.terms.mint))]
        && y.activated == x.activated + [c.terms.quoteId]
      else
        y.state.certs == x.state.certs && y.activated == x.activated
  {
    hide QuoteByRef, WithinBuyerLimit, Headroom;
    var y, p := Take(cfg, checkpointOf, x, t, m), TermsOf(t, m.seen);
    var ps := x.state.payments;
    assert ps + [Payment(p, false)] == Credited(x.state, p).payments;
    assert (ps + [Payment(p, false)])[|ps| := Payment(p, true)] == ps + [Payment(p, true)];
    forall k | 0 <= k < |ps| ensures y.state.payments[k].terms.txSignature != t.txSignature {
      assert y.state.payments[k] == ps[k];
    }
  }

  // ---- The whole scan ----

  lemma {:induction false} KnownAfter(cfg: Config, checkpointOf: Checkpoints, s: State, ts: seq<Transfer>,
                                      ms: seq<Moment>, tx: Key)
    requires Takeable(ts, ms)
    ensures KnownTx(TakeAll(cfg, checkpointOf, s, ts, ms).state, tx)
            <==> KnownTx(s, tx) || exists k :: 0 <= k < |ts| && ts[k].txSignature == tx
  {
    hide Take, KnownTx;
    if ts != [] {
      var n := |ts| - 1;
      var x := TakeAll(cfg, checkpointOf, s, ts[..n], ms);
      KnownAfter(cfg, checkpointOf, s, ts[..n], ms, tx);
      KnownAfterOne(cfg, checkpointOf, x, ts[n], ms[n], tx);
      assert (exists k :: 0 <= k < n && ts[..n][k].txSignature == tx) <==> exists k :: 0 <= k < n && ts[k].txSignature == tx by {
        assert forall k :: 0 <= k < n ==> ts[..n][k] == ts[k];
      }
    }
  }

  lemma KnownAfterOne(cfg: Config, checkpointOf: Checkpoints, x: Intake, t: Transfer, m: Moment, tx: Key)
    requires t.amount >= 0
    ensures KnownTx(Take(cfg, checkpointOf, x, t, m).state, tx) <==> KnownTx(x.state, tx) || t.txSignature == tx
  {
    var y := Take(cfg, checkpointOf, x, t, m);
    if KnownTx(x.state, t.txSignature) {
      assert y == x by { hide Activates; }
    } else {
      TakeNew(cfg, checkpointOf, x, t, m);
      hide Take, Activates, NewCert;
      PaymentIndexAppend(x.state.payments, y.state.payments[|x.state.payments|], tx);
    }
  }

  /** The first transfer of the scan under a signature the ledger did not know. */
  ghost predicate FirstSeen(s: State, ts: seq<Transfer>, k: nat) {
    k < |ts| && !KnownTx(s, ts[k].txSignature) && forall j :: 0 <= j < k ==> ts[j].txSignature != ts[k].txSignature
  }

  /** The ledger as the transfer number k finds it. */
  ghost function Before(cfg: Config, checkpointOf: Checkpoints, s: State, ts: seq<Transfer>, ms: seq<Moment>, k: nat): Intake
    requires Takeable(ts, ms) && k <= |ts|
  {
    assert forall j :: 0 <= j < k ==> ts[..k][j] == ts[j];
    TakeAll(cfg, checkpointOf, s, ts[..k], ms)
  }

  lemma Arrives(cfg: Config, checkpointOf: Checkpoints, s: State, ts: seq<Transfer>, ms: seq<Moment>, k: nat)
    requires Takeable(ts, ms) && FirstSeen(s, ts, k)
    ensures k < |ts| <= |ms| && ts[k].amount >= 0
    ensures var x, y := Before(cfg, checkpointOf, s, ts, ms, k), TakeAll(cfg, checkpointOf, s, ts, ms);
      && !KnownTx(x.state, ts[k].txSignature)
      && Grown(Take(cfg, checkpointOf, x, ts[k], ms[k]), y)
  {
    hide Take, KnownTx;
    assert forall j :: 0 <= j < k ==> ts[..k][j] == ts[j];
    KnownAfter(cfg, checkpointOf, s, ts[..k], ms, ts[k].txSignature);
    TakeAllGrows(cfg, checkpointOf, s, ts, ms, k + 1);
    TakeNext(cfg, checkpointOf, s, ts, ms, k);
  }

  /**
   * A scanned payment the ledger did not know is in it afterwards, with the terms of its first transfer. It
   * is spent exactly when the guards of activation held as it came in; then its certificate is there, with
   * the checkpoint the port answered for its position.
   */
  lemma ScannedIsCredited(cfg: Config, checkpointOf: Checkpoints, s: State, ts: seq<Transfer>, ms: seq<Moment>, k: nat)
    requires Takeable(ts, ms) && FirstSeen(s, ts, k) && ts[k].amount >= 0
    ensures var x, y := Before(cfg, checkpointOf, s, ts, ms, k).state, TakeAll(cfg, checkpointOf, s, ts, ms);
      var t := ts[k];
      var p := PaymentTerms(t.txSignature, t.referenceKey, t.sender, t.amount, ms[k].seen);
      var credited := x.(payments := x.payments + [Payment(p, false)], treasury := x.treasury + t.amount,
                         totalIn := x.totalIn + t.amount);
      var activates := Activates(cfg, credited, ms[k].tried, p);
      && Before(cfg, checkpointOf, s, ts, ms, k).log + [PaymentObserved(ms[k].seen, Payment(p, false))] <= y.log
      && Payment(p, activates) in y.state.payments
      && (activates ==>
            var c := NewCert(cfg, ms[k].tried, x.quotes[QuoteByRef(x.quotes, t.referenceKey)].terms);
            c.(feeCheckpoint := checkpointOf(c.terms.mint)) in y.state.certs && c.terms.quoteId in y.activated)
  {
    hide *;
    Arrives(cfg, checkpointOf, s, ts, ms, k);
    var x := Before(cfg, checkpointOf, s, ts, ms, k);
    var y := TakeAll(cfg, checkpointOf, s, ts, ms);
    var p := TermsOf(ts[k], ms[k].seen);
    CreditedIs(x.state, ts[k], ms[k].seen);
    if Activates(cfg, Credited(x.state, p), ms[k].tried, p) {
      ActivatesFindsQuote(cfg, Credited(x.state, p), ms[k].tried, p);
    }
    TakeNew(cfg, checkpointOf, x, ts[k], ms[k]);
    var z := Take(cfg, checkpointOf, x, ts[k], ms[k]);
    GrownIs(z, y);
    InPrefix(z.state.payments, y.state.payments, |x.state.payments|);
    if |z.state.certs| > |x.state.certs| {
      InPrefix(z.state.certs, y.state.certs, |x.state.certs|);
      InPrefix(z.activated, y.activated, |x.activated|);
    }
  }

  lemma GrownIs(x: Intake, y: Intake)
    requires Grown(x, y)
    ensures x.state.payments <= y.state.payments && x.state.certs <= y.state.certs
    ensures x.activated <= y.activated && x.log <= y.log
  {
  }

  lemma CreditedIs(s: State, t: Transfer, now: int)
    requires t.amount >= 0
    ensures var p := TermsOf(t, now);
      && p == PaymentTerms(t.txSignature, t.referenceKey, t.sender, t.amount, now)
      && Credited(s, p) == s.(payments := s.payments + [Payment(p, false)], treasury := s.treasury + t.amount,
                              totalIn := s.totalIn + t.amount)
  {
  }

  lemma ActivatesFindsQuote(cfg: Config, s: State, now: int, p: PaymentTerms)
    requires Activates(cfg, s, now, p)
    ensures QuoteByRef(s.quotes, p.referenceKey) < |s.quotes|
  {
  }

  lemma InPrefix<T>(xs: seq<T>, ys: seq<T>, i: nat)
    requires xs <= ys && i < |xs|
    ensures xs[i] in ys
  {
    assert ys[i] == xs[i];
  }

  ghost function NewSignatures(s: State, ts: seq<Transfer>): set<Key> {
    set k | 0 <= k < |ts| && PaymentByTx(s.payments, ts[k].txSignature) == |s.payments| :: ts[k].txSignature
  }

  /** As many payments are observed as there are new signatures in the scan, and no other payment appears. */
  lemma {:induction false} ObservedIsCount(cfg: Config, checkpointOf: Checkpoints, s: State, ts: seq<Transfer>, ms: seq<Moment>)
    requires Takeable(ts, ms)
    ensures var y := TakeAll(cfg, checkpointOf, s, ts, ms);
      && y.observed == |NewSignatures(s, ts)|
      && |y.state.payments| == |s.payments| + y.observed && s.payments <= y.state.payments
  {
    hide Take;
    if ts != [] {
      var n := |ts| - 1;
      var x, t := TakeAll(cfg, checkpointOf, s, ts[..n], ms), ts[n];
      ObservedIsCount(cfg, checkpointOf, s, ts[..n], ms);
      KnownAfter(cfg, checkpointOf, s, ts[..n], ms, t.txSignature);
      TakeGrows(cfg, checkpointOf, x, t, ms[n]);
      NewSignaturesNext(s, ts);
      if KnownTx(x.state, t.txSignature) {
        TakeKnown(cfg, checkpointOf, x, t, ms[n]);
      } else {
        TakeNew(cfg, checkpointOf, x, t, ms[n]);
      }
    }
  }

  lemma TakeKnown(cfg: Config, checkpointOf: Checkpoints, x: Intake, t: Transfer, m: Moment)
    requires t.amount >= 0 && KnownTx(x.state, t.txSignature)
    ensures Take(cfg, checkpointOf, x, t, m) == x
  {
    hide Activates;
  }

  lemma NewSignaturesNext(s: State, ts: seq<Transfer>)
    requires ts != []
    ensures var n := |ts| - 1;
      var front, t := NewSignatures(s, ts[..n]), ts[n].txSignature;
      && NewSignatures(s, ts) == front + (if KnownTx(s, t) then {} else {t})
      && (t in front <==> !KnownTx(s, t) && exists k :: 0 <= k < n && ts[..n][k].txSignature == t)
  {
    var n := |ts| - 1;
    assert forall k :: 0 <= k < n ==> ts[..n][k] == ts[k];
    assert ts[n].txSignature == ts[|ts| - 1].txSignature;
  }

  // ---- Counting events ----

  function CreditOf(e: Event): int { if e.PaymentObserved? then 1 else 0 }

  function LapseOf(e: Event): int { if e.QuoteLapsed? then 1 else 0 }

  /** The quote ids activated by the events, in order. */
  function ActivatedIn(es: seq<Event>): seq<Key> {
    if es == [] then []
    else
      var e := es[|es| - 1];
      ActivatedIn(es[..|es| - 1]) + (if e.CertificateActivated? then [e.cert.terms.quoteId] else [])
  }

  lemma {:induction false} ActivatedInConcat(es: seq<Event>, more: seq<Event>)
    ensures ActivatedIn(es + more) == ActivatedIn(es) + ActivatedIn(more)
  {
    if more == [] {
      assert es + more == es;
    } else {
      ActivatedInConcat(es, more[..|more| - 1]);
      assert (es + more)[..|es + more| - 1] == es + more[..|more| - 1];
    }
  }

  /** No payouts among the events, and so many credits, lapses and activations. */
  ghost predicate Tally(es: seq<Event>, credits: int, lapses: int, activated: seq<Key>) {
    Quiet(es) && Sum(es, CreditOf) == credits && Sum(es, LapseOf) == lapses && ActivatedIn(es) == activated
  }

  lemma TallyOfNone()
    ensures Tally([], 0, 0, [])
  {
  }

  lemma TallyOfSingle(e: Event)
    requires !IsPayout(e)
    ensures Tally([e], CreditOf(e), LapseOf(e), if e.CertificateActivated? then [e.cert.terms.quoteId] else [])
  {
    assert [e][..0] == [];
  }

  lemma TallyConcat(es: seq<Event>, more: seq<Event>, c: int, l: int, a: seq<Key>, c': int, l': int, a': seq<Key>)
    requires Tally(es, c, l, a) && Tally(more, c', l', a')
    ensures Tally(es + more, c + c', l + l', a + a')
  {
    hide Sum, ActivatedIn;
    SumConcat(es, more, CreditOf);
    SumConcat(es, more, LapseOf);
    ActivatedInConcat(es, more);
  }

  lemma TallyIsQuiet(es: seq<Event>, c: int, l: int, a: seq<Key>)
    requires Tally(es, c, l, a)
    ensures Quiet(es)
  {
  }

  lemma {:induction false} LapseTally(qs: seq<Quote>, now: int)
    ensures Tally(LapseEvents(qs, now), 0, |LapseEvents(qs, now)|, [])
  {
    hide Tally;
    TallyOfNone();
    var none: seq<Key> := [];
    assert none + none == none;
    if qs != [] {
      var rest := LapseEvents(qs[..|qs| - 1], now);
      LapseTally(qs[..|qs| - 1], now);
      var q := qs[|qs| - 1];
      if q.status == Open && now > q.terms.validUntil {
        var e := QuoteLapsed(now, q.terms.quoteId);
        assert LapseEvents(qs, now) == rest + [e];
        TallyOfSingle(e);
        TallyConcat(rest, [e], 0, |rest|, [], 0, 1, []);
      } else {
        assert LapseEvents(qs, now) == rest + [] == rest;
      }
    }
  }

  // ---- From one transfer to the next ----

  /** The clock never goes back between the readings, the first of them not before from and the last not after to. */
  ghost predicate Clocked(ms: seq<Moment>, from: int, to: int) {
    && from <= to
    && (forall k :: 0 <= k < |ms| ==> from <= ms[k].seen <= ms[k].tried <= ms[k].noted <= to)
    && (forall k :: 0 < k < |ms| ==> ms[k - 1].noted <= ms[k].seen)
  }

  lemma ClockTicks(ms: seq<Moment>, m: Moment, from: int, to: int)
    requires Clocked(ms, from, to) && to <= m.seen <= m.tried <= m.noted
    ensures Clocked(ms + [m], from, m.noted)
  {
  }

  lemma ClockRuns(ms: seq<Moment>, from: int, to: int, later: int)
    requires Clocked(ms, from, to) && to <= later
    ensures Clocked(ms, from, later)
  {
  }

  /** After each transfer the log so far leads to the ledger so far. */
  ghost predicate Followed(cfg: Config, checkpointOf: Checkpoints, before: seq<Event>, s: State, ts: seq<Transfer>,
                           ms: seq<Moment>, n: nat)
  {
    && n <= |ts|
    && forall i :: 0 <= i <= n ==> Reaches(cfg, checkpointOf, before, s, ts[..i], ms)
  }

  ghost predicate Reaches(cfg: Config, checkpointOf: Checkpoints, before: seq<Event>, s: State, ts: seq<Transfer>,
                          ms: seq<Moment>)
  {
    && Takeable(ts, ms)
    && var x := TakeAll(cfg, checkpointOf, s, ts, ms);
       Replay(before + x.log) == Ok(x.state)
  }

  lemma FollowedNext(cfg: Config, checkpointOf: Checkpoints, before: seq<Event>, s: State, ts: seq<Transfer>,
                     ms: seq<Moment>, n: nat, m: Moment)
    requires Followed(cfg, checkpointOf, before, s, ts, ms, n) && n < |ts|
    requires Reaches(cfg, checkpointOf, before, s, ts[..n + 1], ms + [m])
    ensures Followed(cfg, checkpointOf, before, s, ts, ms + [m], n + 1)
  {
    hide TakeAll, Replay;
    forall i | 0 <= i <= n + 1 ensures Reaches(cfg, checkpointOf, before, s, ts[..i], ms + [m]) {
      if i <= n {
        assert Reaches(cfg, checkpointOf, before, s, ts[..i], ms);
        MomentsToCome(cfg, checkpointOf, s, ts[..i], ms, [m]);
      }
    }
  }

  /** How far a scan is taken: up to its first negative amount. */
  ghost predicate Scanned(ts: seq<Transfer>, aborted: bool, taken: nat) {
    && taken <= |ts| && (aborted <==> taken < |ts|)
    && (forall k :: 0 <= k < taken ==> ts[k].amount >= 0)
    && (aborted ==> ts[taken].amount < 0)
  }

  lemma TakeNone(cfg: Config, checkpointOf: Checkpoints, s: State, ts: seq<Transfer>)
    ensures Takeable(ts[..0], []) && TakeAll(cfg, checkpointOf, s, ts[..0], []) == Intake(s, [], 0, [])
  {
  }

  lemma Onward(cfg: Config, checkpointOf: Checkpoints, s: State, ts: seq<Transfer>, ms: seq<Moment>, i: nat, m: Moment)
    requires i < |ts| && |ms| == i && Takeable(ts[..i], ms) && ts[i].amount >= 0
    ensures Takeable(ts[..i + 1], ms + [m])
    ensures TakeAll(cfg, checkpointOf, s, ts[..i + 1], ms + [m])
         == Take(cfg, checkpointOf, TakeAll(cfg, checkpointOf, s, ts[..i], ms), ts[i], m)
  {
    hide Take;
    assert forall k :: 0 <= k < i ==> ts[..i + 1][k] == ts[..i][k];
    MomentsToCome(cfg, checkpointOf, s, ts[..i], ms, [m]);
    TakeNext(cfg, checkpointOf, s, ts, ms + [m], i);
  }

  /** What a step adds does not depend on what was counted before. */
  lemma TakeFrom(cfg: Config, checkpointOf: Checkpoints, x: Intake, t: Transfer, m: Moment)
    requires t.amount >= 0
    ensures var d := Take(cfg, checkpointOf, Intake(x.state, [], 0, []), t, m);
            Take(cfg, checkpointOf, x, t, m) == Intake(d.state, x.log + d.log, x.observed + d.observed, x.activated + d.activated)
  {
    hide Activates, NewCert, PaymentByTx, QuoteByRef;
  }

  lemma {:induction false} IntakeTally(cfg: Config, checkpointOf: Checkpoints, s: State, ts: seq<Transfer>, ms: seq<Moment>)
    requires Takeable(ts, ms)
    ensures var x := TakeAll(cfg, checkpointOf, s, ts, ms);
            Tally(x.log, x.observed, 0, x.activated)
  {
    hide Take, Tally;
    if ts == [] {
      TallyOfNone();
    } else {
      var n := |ts| - 1;
      var x := TakeAll(cfg, checkpointOf, s, ts[..n], ms);
      var d := Take(cfg, checkpointOf, Intake(x.state, [], 0, []), ts[n], ms[n]);
      IntakeTally(cfg, checkpointOf, s, ts[..n], ms);
      TakeFrom(cfg, checkpointOf, x, ts[n], ms[n]);
      TakeTally(cfg, checkpointOf, x.state, ts[n], ms[n]);
      TallyConcat(x.log, d.log, x.observed, 0, x.activated, d.observed, 0, d.activated);
    }
  }

  lemma TakeTally(cfg: Config, checkpointOf: Checkpoints, s: State, t: Transfer, m: Moment)
    requires t.amount >= 0
    ensures var d := Take(cfg, checkpointOf, Intake(s, [], 0, []), t, m);
            Tally(d.log, d.observed, 0, d.activated)
  {
    hide Activates, PaymentByTx, QuoteByRef, Tally;
    var d := Take(cfg, checkpointOf, Intake(s, [], 0, []), t, m);
    TallyOfNone();
    if |d.log| >= 1 {
      TallyOfSingle(d.log[0]);
      if |d.log| == 1 {
        assert d.log == [d.log[0]];
      } else {
        TallyOfSingle(d.log[1]);
        assert d.activated == [d.log[1].cert.terms.quoteId] == [] + d.activated;
        TallyConcat([d.log[0]], [d.log[1]], 1, 0, [], 0, 0, d.activated);
        var two := [d.log[0]] + [d.log[1]];
        if |d.log| == 2 {
          assert d.log == two;
        } else {
          TallyOfSingle(d.log[2]);
          TallyConcat(two, [d.log[2]], 1, 0, d.activated, 0, 0, []);
          assert d.activated + [] == d.activated && d.log == two + [d.log[2]];
        }
      }
    }
  }

  /** The whole opening of a cycle: the scan, up to a negative amount, and else the lapsing of stale quotes. */
  ghost function OpeningOf(cfg: Config, checkpointOf: Checkpoints, s: State, ts: seq<Transfer>, taken: nat,
                           ms: seq<Moment>, lapsedAt: int): Intake
    requires taken <= |ts| && Takeable(ts[..taken], ms)
  {
    var x := TakeAll(cfg, checkpointOf, s, ts[..taken], ms);
    if taken < |ts| then x
    else x.(state := x.state.(quotes := LapseAll(x.state.quotes, lapsedAt)),
            log := x.log + LapseEvents(x.state.quotes, lapsedAt))
  }

  /** No quote is left open past its validity, and none that is valid yet is touched. */
  lemma StaleQuotesLapse(cfg: Config, checkpointOf: Checkpoints, s: State, ts: seq<Transfer>, ms: seq<Moment>, lapsedAt: int)
    requires Takeable(ts, ms)
    ensures ts[..|ts|] == ts
    ensures var x, y := TakeAll(cfg, checkpointOf, s, ts, ms).state,
                        OpeningOf(cfg, checkpointOf, s, ts, |ts|, ms, lapsedAt).state;
      && |y.quotes| == |x.quotes|
      && (forall n :: 0 <= n < |y.quotes| ==> y.quotes[n].terms == x.quotes[n].terms)
      && (forall n :: 0 <= n < |y.quotes| && y.quotes[n].status == Open ==> lapsedAt <= y.quotes[n].terms.validUntil)
      && (forall n :: 0 <= n < |y.quotes| && lapsedAt <= y.quotes[n].terms.validUntil ==> y.quotes[n] == x.quotes[n])
      && y == x.(quotes := y.quotes)
  {
    hide TakeAll;
    assert ts[..|ts|] == ts;
  }
}
