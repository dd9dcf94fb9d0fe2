/**
 * ledger.ts: the certificate ledger. Records are mutated in place; each commit re-checks I1 to I4 and
 * then appends a deep copy of its event.
 */
module HedgeLedger {
  import opened Outcomes
  import opened HedgeTypes
  import opened HedgeInvariants
  import opened HedgeTransitions
  import opened HedgeSafety
  import opened HedgeRuns
  import opened HedgeReplay
  import opened HedgeRecords
  import opened HedgeScans
  import opened Sums

  // ---- What the calls do, on values ----

  /** One observation: nothing for a known signature, else a credit and, if it may, an activation. */
  ghost predicate ObserveOutcome(cfg: Config, s: State, t: Transfer, now: int, later: int,
                                 s': State, added: seq<Event>, r: Result<(bool, Option<Cert>), LedgerError>)
  {
    if t.amount < 0 then
      r == Err(InvalidAmount) && s' == s && added == []
    else if PaymentByTx(s.payments, t.txSignature) < |s.payments| then
      r == Ok((false, None)) && s' == s && added == []
    else
      var p := PaymentTerms(t.txSignature, t.referenceKey, t.sender, t.amount, now);
      var s1 := WithPayment(s, Payment(p, false));
      if Activates(cfg, s1, later, p) then
        var qi := QuoteByRef(s.quotes, t.referenceKey);
        var c := NewCert(cfg, later, s.quotes[qi].terms);
        && r == Ok((true, Some(c)))
        && s' == WithCert(s1, qi, |s.payments|, c)
        && added == [PaymentObserved(now, Payment(p, false)), CertificateActivated(later, c, t.txSignature)]
      else
        && r == Ok((true, None))
        && s' == s1
        && added == [PaymentObserved(now, Payment(p, false))]
  }

  ghost predicate RefundOutcome(s: State, tx: Key, now: int, s': State, added: seq<Event>,
                                r: Result<(int, Key), LedgerError>)
  {
    match RefundRefusal(s, now, tx)
    case Some(x) => r == Err(x) && s' == s && added == []
    case None =>
      var i := PaymentByTx(s.payments, tx);
      var p := s.payments[i].terms;
      && r == Ok((p.amount, p.sender))
      && s' == WithRefund(s, i)
      && added == [PaymentRefunded(now, tx, p.amount, RefundReasonFor(s, p))]
  }

  ghost predicate SettleOutcome(cfg: Config, s: State, id: Key, reading: Reading, fees: int, now: int,
                                s': State, added: seq<Event>, r: Result<(int, Key), LedgerError>)
  {
    match SettleRefusal(cfg, s, now, id, reading.price, fees)
    case Some(x) => r == Err(x) && s' == s && added == []
    case None =>
      var i, k := CertById(s.certs, id), QuoteById(s.quotes, id);
      var c := s.certs[i].terms;
      var payoff := Payoff(cfg, s.quotes[k].terms, c, reading.price);
      var split := FeeSplit(cfg, fees);
      var amount := SettlementAmount(payoff, split, c.capUp);
      && r == Ok((amount, c.buyer))
      && s' == WithSettlement(s, i, Settlement(reading.price, payoff, split, amount, now), FinalStatus(payoff))
      && added == [CertificateSettled(now, id, reading, payoff, split, amount, FinalStatus(payoff))]
  }

  ghost predicate CheckpointOutcome(s: State, id: Key, cp: FeeCheckpoint, now: int, s': State, added: seq<Event>) {
    var i := CertById(s.certs, id);
    if i == |s.certs| || s.certs[i].feeCheckpoint.Some? then s' == s && added == []
    else s' == WithCheckpoint(s, i, cp) && added == [FeeCheckpointRecorded(now, id, cp)]
  }

  // ---- What a commit may rely on ----

  /** A transition from the end of a run continues the run and passes the runtime checks. */
  lemma NextCommit(cfg: Config, states: seq<State>, log: seq<Event>, e: Event, s: State)
    requires cfg.Sane() && History(cfg, states, log)
    requires log[|log| - 1].ts <= e.ts && Transition(cfg, states[|states| - 1], e, s)
    ensures History(cfg, states + [s], log + [e])
    ensures Checks(s)
  {
    InvariantOfRun(cfg, states, log);
    TransitionKeeps(cfg, states[|states| - 1], log[|log| - 1].ts, e, s);
    InvImpliesChecks(cfg, s, e.ts);
    HistoryExtends(cfg, states, log, e, s);
  }

  /** The Maps' keys are found where they are. */
  lemma KeysOfRun(cfg: Config, states: seq<State>, log: seq<Event>, s: State)
    requires cfg.Sane() && History(cfg, states, log) && s == states[|states| - 1]
    ensures forall i :: 0 <= i < |s.quotes| ==> QuoteById(s.quotes, s.quotes[i].terms.quoteId) == i
    ensures forall i :: 0 <= i < |s.payments| ==> PaymentByTx(s.payments, s.payments[i].terms.txSignature) == i
  {
    InvariantOfRun(cfg, states, log);
    assert Inv(cfg, s, log[|log| - 1].ts);
  }

  // ---- The commits of each action are transitions ----

  lemma PauseIsTransition(cfg: Config, s: State, now: int, b: bool)
    ensures Transition(cfg, s, PausedSet(now, b), s.(paused := b))
  {
  }

  lemma IssueIsTransition(cfg: Config, s: State, now: int, pos: Position, regimeUpdatedAt: int,
                          priced: Priced, id: Key, r: Key)
    requires QuoteById(s.quotes, id) == |s.quotes| && QuoteByRef(s.quotes, r) == |s.quotes|
    requires QuoteRefusal(cfg, s, now, pos, regimeUpdatedAt, Some(priced)) == None
    ensures var q := NewQuote(cfg, now, pos, priced, id, r);
      && Transition(cfg, s, QuoteIssued(now, q), s.(quotes := s.quotes + [q]))
      && PutQuote(s.quotes, q) == s.quotes + [q]
  {
  }

  lemma ObserveIsTransition(cfg: Config, s: State, p: PaymentTerms)
    requires PaymentByTx(s.payments, p.txSignature) == |s.payments|
    ensures Transition(cfg, s, PaymentObserved(p.observedAt, Payment(p, false)), WithPayment(s, Payment(p, false)))
    ensures PutPayment(s.payments, Payment(p, false)) == s.payments + [Payment(p, false)]
  {
  }

  lemma ActivateIsTransition(cfg: Config, s: State, now: int, pi: nat)
    requires pi < |s.payments| && !s.payments[pi].matched
    requires PaymentByTx(s.payments, s.payments[pi].terms.txSignature) == pi
    requires Activates(cfg, s, now, s.payments[pi].terms)
    ensures
      var p := s.payments[pi].terms;
      var qi := QuoteByRef(s.quotes, p.referenceKey);
      var c := NewCert(cfg, now, s.quotes[qi].terms);
      && Transition(cfg, s, CertificateActivated(now, c, p.txSignature), WithCert(s, qi, pi, c))
      && PutCert(s.certs, c) == s.certs + [c]
  {
  }

  lemma LapseIsTransition(cfg: Config, s: State, i: nat, now: int)
    requires i < |s.quotes| && QuoteById(s.quotes, s.quotes[i].terms.quoteId) == i
    requires s.quotes[i].status == Open && now > s.quotes[i].terms.validUntil
    ensures Transition(cfg, s, QuoteLapsed(now, s.quotes[i].terms.quoteId), WithLapsed(s, i))
  {
  }

  lemma LapseStart(qs: seq<Quote>, now: int)
    ensures LapseAll(qs[..0], now) + qs[0..] == qs && LapseEvents(qs[..0], now) == []
  {
  }

  /** The sweep has lapsed a prefix; quote i is next. */
  lemma LapseOne(qs: seq<Quote>, i: nat, now: int)
    requires i < |qs|
    ensures var mid := LapseAll(qs[..i], now) + qs[i..];
      && |mid| == |qs| && mid[i] == qs[i]
      && LapseAll(qs[..i + 1], now) + qs[i + 1..] == mid[i := LapsedIfStale(qs[i], now)]
    ensures LapseEvents(qs[..i + 1], now) == LapseEvents(qs[..i], now) +
      (if qs[i].status == Open && now > qs[i].terms.validUntil then [QuoteLapsed(now, qs[i].terms.quoteId)] else [])
  {
    assert qs[..i + 1][..i] == qs[..i];
    var l := LapseAll(qs[..i + 1], now);
    assert l == LapseAll(qs[..i], now) + [LapsedIfStale(qs[i], now)];
  }

  lemma PricedWhenAccepted(cfg: Config, s: State, now: int, pos: Position, regimeUpdatedAt: int, priced: Option<Priced>)
    requires QuoteRefusal(cfg, s, now, pos, regimeUpdatedAt, priced) == None
    ensures priced.Some?
  {
  }

  lemma SettleIsTransition(cfg: Config, s: State, now: int, id: Key, reading: Reading, fees: int, s': State, e: Event)
    requires cfg.Sane() && SettleRefusal(cfg, s, now, id, reading.price, fees) == None
    requires SettleOutcome(cfg, s, id, reading, fees, now, s', [e],
                           Ok((SettledAmount(e), s.certs[CertById(s.certs, id)].terms.buyer)))
    ensures Transition(cfg, s, e, s')
  {
    FeeSplitNonNegative(cfg, fees);
  }

  function SettledAmount(e: Event): int { if e.CertificateSettled? then e.amount else 0 }

  class CertificateLedger {
    const config: Config
    const clock: Clock

    var paused: bool
    var initialReserves: int
    var treasury: int
    var totalIn: int
    var totalSettled: int
    var totalRefunded: int
    var quotes: seq<QuoteRecord>
    var payments: seq<PaymentRecord>
    var certs: seq<CertificateRecord>
    var events: seq<Event>

    /** The value of the live records. */
    ghost var state: State
    /** The state right after each event of the log. */
    ghost var history: seq<State>
    ghost var Repr: set<object>

    /** The ghost state is the live records', and no record stands under two keys. */
    ghost predicate Wired()
      reads this`Repr, this`state, this`paused, this`initialReserves, this`treasury, this`totalIn,
            this`totalSettled, this`totalRefunded, this`quotes, this`payments, this`certs,
            quotes, payments, certs
    {
      && this in Repr
      && (forall q :: q in quotes ==> q in Repr)
      && (forall p :: p in payments ==> p in Repr)
      && (forall c :: c in certs ==> c in Repr)
      && Distinct(quotes) && Distinct(payments) && Distinct(certs)
      && state == State(paused, initialReserves, treasury, totalIn, totalSettled, totalRefunded,
                        QuoteValues(quotes), PaymentValues(payments), CertValues(certs))
    }

    /** The live records are where the log leads, and the log is a run of the ledger. */
    ghost predicate Valid()
      reads this, quotes, payments, certs, clock
    {
      && this in Repr && clock !in Repr
      && Wired()
      && config.Sane()
      && History(config, history, events)
      && state == history[|history| - 1]
      && events[|events| - 1].ts <= clock.last
    }

    ghost predicate LogGrewBy(before: seq<Event>, statesBefore: seq<State>, added: seq<Event>)
      reads this
    {
      && events == before + added
      && |statesBefore| <= |history| && history[..|statesBefore|] == statesBefore
    }

    /** A deep copy of the live records. */
    function Value(): (s: State)
      requires Wired()
      reads this`Repr, this`state, this`paused, this`initialReserves, this`treasury, this`totalIn,
            this`totalSettled, this`totalRefunded, this`quotes, this`payments, this`certs,
            quotes, payments, certs
      ensures s == state
    {
      State(paused, initialReserves, treasury, totalIn, totalSettled, totalRefunded,
            QuoteValues(quotes), PaymentValues(payments), CertValues(certs))
    }

    constructor (config: Config, clock: Clock, reserves: nat)
      requires config.Sane()
      modifies clock
      ensures Valid() && fresh(Repr) && this.config == config && this.clock == clock
      ensures state == OpenedState(reserves)
      ensures events == [LedgerOpened(clock.last, reserves)] && clock.last >= old(clock.last)
    {
      this.config, this.clock := config, clock;
      paused, initialReserves, treasury := false, reserves, reserves;
      totalIn, totalSettled, totalRefunded := 0, 0, 0;
      quotes, payments, certs, events := [], [], [], [];
      state := OpenedState(reserves);
      Repr := {this};
      new;
      var now := clock.Now();
      var ok := Commit(LedgerOpened(now, reserves));
      OpenedStateChecks(reserves);
      assert ok;
      history := [state];
    }

    /** Validate, then append: a violating transition never reaches the log. */
    method Commit(e: Event) returns (ok: bool)
      requires Wired()
      modifies this`events
      ensures Wired()
      ensures ok <==> Checks(state)
      ensures events == if ok then old(events) + [e] else old(events)
    {
      var failures := CheckInvariants(Value());
      ok := failures == [];
      if ok {
        events := events + [e];
      }
    }

    /** A commit of a transition of the ledger never throws. */
    method Record(e: Event)
      requires this in Repr && clock !in Repr && Wired()
      requires config.Sane() && History(config, history, events)
      requires events[|events| - 1].ts <= e.ts <= clock.last
      requires Transition(config, history[|history| - 1], e, state)
      modifies this`events, this`history
      ensures Valid()
      ensures events == old(events) + [e] && history == old(history) + [state]
    {
      hide History, Transition, Checks, Wired;
      NextCommit(config, history, events, e, state);
      var ok := Commit(e);
      assert ok;
      history := history + [state];
      assert Wired();
    }

    // ---- The in-place mutations ----

    method PauseTo(b: bool)
      requires Wired()
      modifies this`paused, this`state
      ensures Wired() && state == old(state).(paused := b)
    {
      paused := b;
      state := state.(paused := b);
    }

    method PutQuoteRecord(q: Quote)
      requires Wired()
      modifies this`quotes, this`state, this`Repr
      ensures Wired() && fresh(Repr - old(Repr)) && old(Repr) <= Repr
      ensures state == old(state).(quotes := PutQuote(old(state).quotes, q))
    {
      var i := QuoteById(Value().quotes, q.terms.quoteId);
      var rec := new QuoteRecord(q);
      quotes := if i < |quotes| then quotes[i := rec] else quotes + [rec];
      Repr := Repr + {rec};
      state := state.(quotes := PutQuote(state.quotes, q));
      assert QuoteValues(quotes) == state.quotes;
    }

    method PutPaymentRecord(p: Payment)
      requires Wired()
      modifies this`payments, this`state, this`Repr
      ensures Wired() && fresh(Repr - old(Repr)) && old(Repr) <= Repr
      ensures state == old(state).(payments := PutPayment(old(state).payments, p))
    {
      var i := PaymentByTx(Value().payments, p.terms.txSignature);
      var rec := new PaymentRecord(p);
      payments := if i < |payments| then payments[i := rec] else payments + [rec];
      Repr := Repr + {rec};
      state := state.(payments := PutPayment(state.payments, p));
      assert PaymentValues(payments) == state.payments;
    }

    method PutCertRecord(c: Cert)
      requires Wired()
      modifies this`certs, this`state, this`Repr
      ensures Wired() && fresh(Repr - old(Repr)) && old(Repr) <= Repr
      ensures state == old(state).(certs := PutCert(old(state).certs, c))
    {
      var i := CertById(Value().certs, c.terms.quoteId);
      var rec := new CertificateRecord(c);
      certs := if i < |certs| then certs[i := rec] else certs + [rec];
      Repr := Repr + {rec};
      state := state.(certs := PutCert(state.certs, c));
      assert CertValues(certs) == state.certs;
    }

    method Credit(amount: int)
      requires Wired()
      modifies this`treasury, this`totalIn, this`state
      ensures Wired()
      ensures state == old(state).(treasury := old(state).treasury + amount, totalIn := old(state).totalIn + amount)
    {
      treasury := treasury + amount;
      totalIn := totalIn + amount;
      state := state.(treasury := treasury, totalIn := totalIn);
    }

    method LapseAt(i: nat)
      requires Wired() && i < |state.quotes|
      modifies Repr
      ensures Wired()
      ensures Repr == old(Repr) && events == old(events) && history == old(history)
      ensures state == WithLapsed(old(state), i)
    {
      quotes[i].status := Lapsed;
      state := WithLapsed(state, i);
      assert QuoteValues(quotes) == state.quotes;
    }

    method MatchAt(i: nat)
      requires Wired() && i < |state.payments|
      modifies Repr
      ensures Wired()
      ensures Repr == old(Repr) && events == old(events) && history == old(history)
      ensures state == old(state).(payments := old(state).payments[i := old(state).payments[i].(matched := true)])
    {
      payments[i].matched := true;
      state := state.(payments := state.payments[i := state.payments[i].(matched := true)]);
      assert PaymentValues(payments) == state.payments;
    }

    method ConsumeAt(i: nat)
      requires Wired() && i < |state.quotes|
      modifies Repr
      ensures Wired()
      ensures Repr == old(Repr) && events == old(events) && history == old(history)
      ensures state == old(state).(quotes := old(state).quotes[i := old(state).quotes[i].(status := Consumed)])
    {
      quotes[i].status := Consumed;
      state := state.(quotes := state.quotes[i := state.quotes[i].(status := Consumed)]);
      assert QuoteValues(quotes) == state.quotes;
    }

    method CheckpointAt(i: nat, cp: FeeCheckpoint)
      requires Wired() && i < |state.certs|
      modifies Repr
      ensures Wired()
      ensures Repr == old(Repr) && events == old(events) && history == old(history)
      ensures state == WithCheckpoint(old(state), i, cp)
    {
      certs[i].feeCheckpoint := Some(cp);
      state := WithCheckpoint(state, i, cp);
      assert CertValues(certs) == state.certs;
    }

    method Debit(refund: int)
      requires Wired()
      modifies this`treasury, this`totalRefunded, this`state
      ensures Wired()
      ensures state == old(state).(treasury := old(state).treasury - refund,
                                   totalRefunded := old(state).totalRefunded + refund)
    {
      treasury := treasury - refund;
      totalRefunded := totalRefunded + refund;
      state := state.(treasury := treasury, totalRefunded := totalRefunded);
    }

    method SettleAt(i: nat, x: Settlement, status: CertStatus)
      requires Wired() && i < |state.certs|
      modifies Repr
      ensures Wired()
      ensures Repr == old(Repr) && events == old(events) && history == old(history)
      ensures state == WithSettlement(old(state), i, x, status)
    {
      certs[i].status := status;
      certs[i].settlement := Some(x);
      treasury := treasury - x.amount;
      totalSettled := totalSettled + x.amount;
      state := WithSettlement(state, i, x, status);
      assert CertValues(certs) == state.certs;
    }

    // ---- The ledger's actions ----

    method SetPaused(b: bool)
      requires Valid()
      modifies Repr, clock
      ensures Valid() && Repr == old(Repr) && clock.last >= old(clock.last)
      ensures state == old(state).(paused := b)
      ensures LogGrewBy(old(events), old(history), [PausedSet(clock.last, b)])
    {
      hide History, Wired, Transition;
      var now := clock.Now();
      PauseIsTransition(config, state, now, b);
      PauseTo(b);
      Record(PausedSet(now, b));
    }

    /** The fresh quote id and reference key are handed in. */
    method IssueQuote(pos: Position, regimeUpdatedAt: int, priced: Option<Priced>, quoteId: Key, referenceKey: Key)
      returns (r: Result<Quote, LedgerError>)
      requires Valid()
      requires QuoteById(state.quotes, quoteId) == |state.quotes|
      requires QuoteByRef(state.quotes, referenceKey) == |state.quotes|
      modifies Repr, clock
      ensures Valid() && fresh(Repr - old(Repr)) && clock.last >= old(clock.last)
      ensures match QuoteRefusal(config, old(state), clock.last, pos, regimeUpdatedAt, priced)
        case Some(x) => r == Err(x) && state == old(state) && LogGrewBy(old(events), old(history), [])
        case None =>
          var q := NewQuote(config, clock.last, pos, priced.value, quoteId, referenceKey);
          && r == Ok(q)
          && state == old(state).(quotes := old(state).quotes + [q])
          && LogGrewBy(old(events), old(history), [QuoteIssued(clock.last, q)])
    {
      hide History, Wired, QuoteRefusal, NewQuote, Transition, PutQuote, Sum, QuoteById, QuoteByRef;
      var s := Value();
      var now := clock.Now();
      var refusal := RefuseQuote(config, s, now, pos, regimeUpdatedAt, priced);
      if refusal.Some? { return Err(refusal.value); }
      assert priced.Some? by { PricedWhenAccepted(config, s, now, pos, regimeUpdatedAt, priced); }
      IssueIsTransition(config, s, now, pos, regimeUpdatedAt, priced.value, quoteId, referenceKey);
      var q := NewQuote(config, now, pos, priced.value, quoteId, referenceKey);
      PutQuoteRecord(q);
      Record(QuoteIssued(now, q));
      return Ok(q);
    }

    /** Write-once: a second checkpoint for a certificate is ignored. */
    method RecordFeeCheckpoint(quoteId: Key, cp: FeeCheckpoint)
      requires Valid()
      modifies Repr, clock
      ensures Valid() && Repr == old(Repr) && clock.last >= old(clock.last)
      ensures exists added ::
        && CheckpointOutcome(old(state), quoteId, cp, clock.last, state, added)
        && LogGrewBy(old(events), old(history), added)
    {
      hide History, Sum, CertById;
      ghost var s := state;
      var i := CertById(Value().certs, quoteId);
      if i == |certs| || certs[i].feeCheckpoint.Some? {
        assert CheckpointOutcome(s, quoteId, cp, clock.last, state, []);
        return;
      }
      CheckpointAt(i, cp);
      hide Wired;
      var now := clock.Now();
      Record(FeeCheckpointRecorded(now, quoteId, cp));
      assert CheckpointOutcome(s, quoteId, cp, now, state, [FeeCheckpointRecorded(now, quoteId, cp)]);
    }

    /** Lapses every stale open quote, one commit each. */
    method LapseExpiredQuotes() returns (lapsed: nat)
      requires Valid()
      modifies Repr, clock
      ensures Valid() && Repr == old(Repr) && clock.last >= old(clock.last)
      ensures state == old(state).(quotes := LapseAll(old(state).quotes, clock.last))
      ensures LogGrewBy(old(events), old(history), LapseEvents(old(state).quotes, clock.last))
      ensures lapsed == |LapseEvents(old(state).quotes, clock.last)|
    {
      hide History, Wired, LapseAll, LapseEvents, LapsedIfStale, Sum;
      var now := clock.Now();
      lapsed := 0;
      var s := Value();
      var qs := s.quotes;
      LapseStart(qs, now);
      for i := 0 to |qs|
        invariant Valid() && clock.last == now && Repr == old(Repr)
        invariant state == s.(quotes := LapseAll(qs[..i], now) + qs[i..])
        invariant LogGrewBy(old(events), old(history), LapseEvents(qs[..i], now))
        invariant lapsed == |LapseEvents(qs[..i], now)|
      {
        LapseOne(qs, i, now);
        var stale := LapseIfStale(i, now);
        if stale { lapsed := lapsed + 1; }
      }
      assert qs[..|qs|] == qs;
    }

    /** One step of the sweep. */
    method LapseIfStale(i: nat, now: int) returns (stale: bool)
      requires Valid() && clock.last == now && i < |state.quotes|
      modifies Repr
      ensures Valid() && Repr == old(Repr)
      ensures var q := old(state).quotes[i];
        && stale == (q.status == Open && now > q.terms.validUntil)
        && state == old(state).(quotes := old(state).quotes[i := LapsedIfStale(q, now)])
        && LogGrewBy(old(events), old(history), if stale then [QuoteLapsed(now, q.terms.quoteId)] else [])
    {
      hide History, Wired, Transition, Sum, QuoteById;
      var q := Value().quotes[i];
      stale := q.status == Open && now > q.terms.validUntil;
      if stale {
        KeysOfRun(config, history, events, state);
        LapseIsTransition(config, state, i, now);
        LapseAt(i);
        Record(QuoteLapsed(now, q.terms.quoteId));
      }
    }

    /** Credit a finalized inbound transfer once, then try to activate what it pays for. */
    method ObservePayment(t: Transfer) returns (r: Result<(bool, Option<Cert>), LedgerError>)
      requires Valid()
      modifies Repr, clock
      ensures Valid() && fresh(Repr - old(Repr)) && clock.last >= old(clock.last)
      ensures exists now, added ::
        && old(clock.last) <= now <= clock.last
        && ObserveOutcome(config, old(state), t, now, clock.last, state, added, r)
        && LogGrewBy(old(events), old(history), added)
    {
      hide History, Wired, Activates, NewCert, Sum, PaymentByTx, QuoteByRef;
      ghost var s := state;
      ghost var log, states := events, history;
      var now := clock.Now();
      if t.amount < 0 {
        r := Err(InvalidAmount);
        assert ObserveOutcome(config, s, t, now, now, state, [], r);
        return;
      }
      if PaymentByTx(Value().payments, t.txSignature) < |Value().payments| {
        r := Ok((false, None));
        assert ObserveOutcome(config, s, t, now, now, state, [], r);
        return;
      }
      var p := PaymentTerms(t.txSignature, t.referenceKey, t.sender, t.amount, now);
      RecordInflow(p);
      var activated := TryActivate(p);
      r := Ok((true, activated));
      ghost var added := events[|log|..];
      assert events == log + added;
      assert ObserveOutcome(config, s, t, now, clock.last, state, added, r);
      assert history[..|states|] == states;
    }

    /** Inflows are ledgered when they are observed, matched or not. */
    method RecordInflow(p: PaymentTerms)
      requires Valid() && p.observedAt == clock.last
      requires PaymentByTx(state.payments, p.txSignature) == |state.payments|
      modifies Repr
      ensures Valid() && fresh(Repr - old(Repr))
      ensures state == WithPayment(old(state), Payment(p, false))
      ensures LogGrewBy(old(events), old(history), [PaymentObserved(p.observedAt, Payment(p, false))])
    {
      hide History, Wired, Transition, PutPayment, PaymentByTx;
      ObserveIsTransition(config, state, p);
      PutPaymentRecord(Payment(p, false));
      Credit(p.amount);
      Record(PaymentObserved(p.observedAt, Payment(p, false)));
    }

    /** Activates the certificate that the just recorded payment pays for, if every guard allows it. */
    method TryActivate(p: PaymentTerms) returns (r: Option<Cert>)
      requires Valid()
      requires |state.payments| > 0 && state.payments[|state.payments| - 1] == Payment(p, false)
      modifies Repr, clock
      ensures Valid() && fresh(Repr - old(Repr)) && clock.last >= old(clock.last)
      ensures |history| >= |old(history)| && history[..|old(history)|] == old(history)
      ensures
        var s := old(state);
        if Activates(config, s, clock.last, p) then
          var qi := QuoteByRef(s.quotes, p.referenceKey);
          var c := NewCert(config, clock.last, s.quotes[qi].terms);
          && r == Some(c)
          && state == WithCert(s, qi, |s.payments| - 1, c)
          && events == old(events) + [CertificateActivated(clock.last, c, p.txSignature)]
        else
          r == None && state == s && events == old(events)
    {
      hide History, Wired, Headroom, WithinBuyerLimit, NewCert, Transition, PutCert, Sum, PaymentByTx, QuoteByRef, CertById;
      var s := Value();
      var now := clock.Now();
      var may := MayActivate(config, s, now, p);
      if !may { return None; }
      var qi := QuoteByRef(s.quotes, p.referenceKey);
      var pi := |s.payments| - 1;
      KeysOfRun(config, history, events, s);
      ActivateIsTransition(config, s, now, pi);
      var c := NewCert(config, now, s.quotes[qi].terms);
      MatchAt(pi);
      ConsumeAt(qi);
      PutCertRecord(c);
      Record(CertificateActivated(now, c, p.txSignature));
      return Some(c);
    }

    /** Refund a payment that can no longer activate; the answer is the transfer owed. */
    method RefundPayment(tx: Key) returns (r: Result<(int, Key), LedgerError>)
      requires Valid()
      modifies Repr, clock
      ensures Valid() && Repr == old(Repr) && clock.last >= old(clock.last)
      ensures exists added ::
        && RefundOutcome(old(state), tx, clock.last, state, added, r)
        && LogGrewBy(old(events), old(history), added)
    {
      hide History, Wired, Refundable, RefundReasonFor, Sum, PaymentByTx;
      var s := Value();
      var now := clock.Now();
      ghost var added: seq<Event> := [];
      var i := PaymentByTx(s.payments, tx);
      if i == |s.payments| {
        r := Err(UnknownPayment);
      } else if s.payments[i].matched {
        r := Err(AlreadyMatched);
      } else if !Refundable(s, now, s.payments[i].terms) {
        r := Err(StillMatchable);
      } else {
        var p := s.payments[i].terms;
        MatchAt(i);
        Debit(p.amount);
        Record(PaymentRefunded(now, tx, p.amount, RefundReasonFor(s, p)));
        added := [PaymentRefunded(now, tx, p.amount, RefundReasonFor(s, p))];
        r := Ok((p.amount, p.sender));
      }
      assert RefundOutcome(s, tx, now, state, added, r);
    }

    /** Settle an expired certificate, paused or not; the answer is the payout owed to the buyer. */
    method Settle(quoteId: Key, reading: Reading, fees: int) returns (r: Result<(int, Key), LedgerError>)
      requires Valid()
      modifies Repr, clock
      ensures Valid() && Repr == old(Repr) && clock.last >= old(clock.last)
      ensures exists added ::
        && SettleOutcome(config, old(state), quoteId, reading, fees, clock.last, state, added, r)
        && LogGrewBy(old(events), old(history), added)
    {
      hide History, Wired, Payoff, FeeSplit, SettlementAmount, FinalStatus, Transition, Sum, QuoteById, CertById;
      var s := Value();
      var now := clock.Now();
      ghost var added: seq<Event> := [];
      var i := CertById(s.certs, quoteId);
      var k := QuoteById(s.quotes, quoteId);
      if fees < 0 {
        r := Err(InvalidAmount);
      } else if i == |s.certs| {
        r := Err(UnknownCertificate);
      } else if s.certs[i].status != Active {
        r := Err(NotActive);
      } else if now < s.certs[i].terms.expiry {
        r := Err(NotExpired);
      } else if k == |s.quotes| {
        r := Err(UnknownQuote);
      } else {
        var c := s.certs[i].terms;
        var payoff := Payoff(config, s.quotes[k].terms, c, reading.price);
        var split := FeeSplit(config, fees);
        var amount := SettlementAmount(payoff, split, c.capUp);
        if amount > s.treasury {
          r := Err(TreasuryShort);
        } else {
          SettleAt(i, Settlement(reading.price, payoff, split, amount, now), FinalStatus(payoff));
          var e := CertificateSettled(now, quoteId, reading, payoff, split, amount, FinalStatus(payoff));
          added := [e];
          r := Ok((amount, c.buyer));
          assert SettleOutcome(config, s, quoteId, reading, fees, now, state, added, r);
          SettleIsTransition(config, s, now, quoteId, reading, fees, state, e);
          Record(e);
        }
      }
      assert SettleOutcome(config, s, quoteId, reading, fees, now, state, added, r);
    }

    /** The settler's scan. */
    method DueForSettlement() returns (due: seq<Cert>)
      requires Valid()
      modifies clock
      ensures Valid() && clock.last >= old(clock.last)
      ensures due == Due(state.certs, clock.last)
    {
      hide History, Wired;
      var cs := Value().certs;
      var now := clock.Now();
      due := [];
      for i := 0 to |cs|
        invariant due == Due(cs[..i], now)
      {
        assert cs[..i + 1][..i] == cs[..i];
        if cs[i].status == Active && now >= cs[i].terms.expiry {
          due := due + [cs[i]];
        }
      }
      assert cs[..|cs|] == cs;
    }

    // ---- Event-sourced replay ----

    /** Applies one logged event as a fact, with no business guard; None when it applies. */
    method ReplayFact(e: Event) returns (r: Option<LedgerError>)
      requires this in Repr && Wired()
      modifies Repr
      ensures this in Repr && fresh(Repr - old(Repr))
      ensures match ApplyEvent(old(state), e)
        case Err(x) => r == Some(x)
        case Ok(s) => r == None && Wired() && state == s && events == old(events)
    {
      hide Wired, QuoteById, PaymentByTx, CertById, PutQuote, PutPayment, PutCert;
      var s := Value();
      match e {
        case LedgerOpened(_, _) =>
          return Some(DuplicateOpened);
        case QuoteIssued(_, q) =>
          PutQuoteRecord(q);
        case QuoteLapsed(_, id) =>
          var i := QuoteById(s.quotes, id);
          if i == |s.quotes| { return Some(UnknownQuote); }
          LapseAt(i);
        case PaymentObserved(_, p) =>
          PutPaymentRecord(p);
          Credit(p.terms.amount);
        case CertificateActivated(_, c, tx) =>
          PutCertRecord(c);
          var pi := PaymentByTx(s.payments, tx);
          var qi := QuoteById(s.quotes, c.terms.quoteId);
          if pi == |s.payments| || qi == |s.quotes| { return Some(DanglingActivation); }
          MatchAt(pi);
          ConsumeAt(qi);
        case FeeCheckpointRecorded(_, id, cp) =>
          var i := CertById(s.certs, id);
          if i < |s.certs| && s.certs[i].feeCheckpoint == None { CheckpointAt(i, cp); }
        case PaymentRefunded(_, tx, amount, _) =>
          var i := PaymentByTx(s.payments, tx);
          if i == |s.payments| { return Some(UnknownPayment); }
          MatchAt(i);
          Debit(amount);
        case CertificateSettled(ts, id, reading, payoff, feeSplit, amount, finalStatus) =>
          var i := CertById(s.certs, id);
          if i == |s.certs| { return Some(UnknownCertificate); }
          SettleAt(i, Settlement(reading.price, payoff, feeSplit, amount, ts), finalStatus);
        case PausedSet(_, b) =>
          PauseTo(b);
      }
      return None;
    }

    /** One logged event as a fact, then the invariants again; None when it loads. */
    method ApplyReplay(e: Event) returns (r: Option<LedgerError>)
      requires this in Repr && Wired()
      modifies Repr
      ensures this in Repr && fresh(Repr - old(Repr))
      ensures match ReplayEvent(old(state), e)
        case Err(x) => r == Some(x)
        case Ok(s) => r == None && Wired() && state == s && events == old(events) + [e]
    {
      hide Wired, Checks, ApplyEvent;
      r := ReplayFact(e);
      if r == None {
        var ok := Commit(e);
        r := if ok then None else Some(InvariantViolation);
      }
    }

    /**
     * Rebuilds a ledger from its persisted log. It loads exactly when the fold over the log does, and
     * the ledger rebuilt from the log of a run continues that run.
     */
    static method FromEvents(config: Config, clock: Clock, log: seq<Event>)
      returns (r: Result<CertificateLedger, LedgerError>)
      requires config.Sane()
      modifies clock
      ensures match Replay(log)
        case Err(x) => r == Err(x)
        case Ok(s) => r.Ok? && fresh(r.value.Repr) && r.value.Wired() && r.value.state == s
                      && r.value.events == log && r.value.config == config && r.value.clock == clock
      ensures IsRun(config, log) && log[|log| - 1].ts <= clock.last ==> r.Ok? && r.value.Valid()
    {
      hide CertificateLedger.Wired, Replay, History, ReplayEvent;
      ReplayStart(log);
      if |log| == 0 || !log[0].LedgerOpened? { RunsLoad(config, log); return Err(BadLogStart); }
      if log[0].initialReserves < 0 { RunsLoad(config, log); return Err(InvalidAmount); }
      var ledger := new CertificateLedger(config, clock, log[0].initialReserves);
      ledger.events := [log[0]];
      for k := 1 to |log|
        invariant fresh(ledger.Repr) && ledger in ledger.Repr && clock !in ledger.Repr
        invariant ledger.Wired() && ledger.events == log[..k]
        invariant Replay(log[..k]) == Ok(ledger.state)
      {
        ReplayNext(log, k);
        var failed := ledger.ApplyReplay(log[k]);
        if failed.Some? {
          ReplayFailureSticks(log, k + 1);
          RunsLoad(config, log);
          return Err(failed.value);
        }
      }
      assert log[..|log|] == log;
      if IsRun(config, log) {
        ghost var states :| History(config, states, log);
        RunsLoad(config, log);
        ReplayWholeLog(config, states, log);
        ledger.history := states;
      }
      return Ok(ledger);
    }
  }

  /** The log of a run of the ledger. */
  ghost predicate IsRun(cfg: Config, log: seq<Event>) {
    |log| > 0 && exists states :: History(cfg, states, log)
  }

  lemma RunsLoad(cfg: Config, log: seq<Event>)
    requires cfg.Sane()
    ensures IsRun(cfg, log) ==> Replay(log).Ok?
    ensures forall states :: History(cfg, states, log) ==> |states| == |log| > 0 && Replay(log) == Ok(states[|log| - 1])
  {
    forall states | History(cfg, states, log) ensures Replay(log) == Ok(states[|log| - 1]) {
      ReplayWholeLog(cfg, states, log);
    }
  }

  lemma ReplayStart(log: seq<Event>)
    ensures |log| == 0 || !log[0].LedgerOpened? ==> Replay(log) == Err(BadLogStart)
    ensures |log| > 0 && log[0].LedgerOpened? && log[0].initialReserves < 0 ==> Replay(log) == Err(InvalidAmount)
    ensures |log| > 0 && log[0].LedgerOpened? && log[0].initialReserves >= 0 ==>
      log[..1] == [log[0]] && Replay(log[..1]) == Ok(OpenedState(log[0].initialReserves))
  {
    if |log| > 0 {
      assert log[..1] == [log[0]];
    }
  }

  lemma ReplayNext(log: seq<Event>, k: nat)
    requires 0 < k < |log| && Replay(log[..k]).Ok?
    ensures log[..k + 1] == log[..k] + [log[k]]
    ensures Replay(log[..k + 1]) == ReplayEvent(Replay(log[..k]).value, log[k])
  {
    assert log[..k + 1][..k] == log[..k];
  }
}
