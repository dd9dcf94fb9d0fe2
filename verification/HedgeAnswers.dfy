/**
 * The ledger from its log alone: what stands in every event of every run, and what the ledger answers after
 * it, told in the timestamps, amounts and keys of the events before.
 */
module HedgeAnswers {
  import opened Outcomes
  import opened HedgeTypes
  import opened HedgeInvariants
  import opened HedgePayoff
  import opened HedgeTransitions
  import opened HedgeSafety
  import opened HedgeRuns
  import opened HedgeScans
  import P = HedgeProvenance
  import opened Sums

  // ---- The state after k + 1 events ----

  lemma StateOf(cfg: Config, states: seq<State>, log: seq<Event>, k: nat)
    requires cfg.Sane() && History(cfg, states, log) && k < |log|
    ensures P.Sourced(states[k], log[..k + 1]) && Inv(cfg, states[k], log[k].ts)
    ensures forall i :: 0 <= i <= k ==> log[..k + 1][i] == log[i]
  {
    hide P.Sourced, Inv, Transition;
    HistoryPrefix(cfg, states, log, k + 1);
    P.RunIsSourced(cfg, states[..k + 1], log[..k + 1]);
    InvariantOfRun(cfg, states, log);
  }

  lemma ClockOfRun(cfg: Config, states: seq<State>, log: seq<Event>, i: nat, k: nat)
    requires History(cfg, states, log) && i <= k < |log|
    ensures log[i].ts <= log[k].ts
    decreases k - i
  {
    if i < k {
      ClockOfRun(cfg, states, log, i, k - 1);
      assert log[k - 1].ts <= log[k].ts;
    }
  }

  lemma StepOf(cfg: Config, states: seq<State>, log: seq<Event>, k: nat)
    requires History(cfg, states, log) && k < |log| && !log[k].LedgerOpened?
    ensures k > 0 && Transition(cfg, states[k - 1], log[k], states[k]) && log[k - 1].ts <= log[k].ts
  {
  }

  lemma OpensFirst(cfg: Config, states: seq<State>, log: seq<Event>, k: nat)
    requires History(cfg, states, log) && 0 < k < |log|
    ensures !log[k].LedgerOpened?
  {
    assert Transition(cfg, states[k - 1], log[k], states[k]);
  }

  // ---- Quotes ----

  /** What an issued quote says: valid for the time to live, payable with its collateral, the fee rounded down. */
  lemma IssuedTerms(cfg: Config, states: seq<State>, log: seq<Event>, k: nat)
    requires cfg.Sane() && History(cfg, states, log) && k < |log| && log[k].QuoteIssued?
    ensures var t := log[k].quote.terms;
      && log[k].quote.status == Open
      && t.issuedAt == log[k].ts && t.validUntil == log[k].ts + cfg.quoteTtlSeconds
      && t.totalPayable == t.premium + t.capUp
      && t.protocolFee * 10_000 <= t.premium * cfg.protocolFeeBps < (t.protocolFee + 1) * 10_000
    ensures forall i :: 0 <= i < k && log[i].QuoteIssued? ==>
      && log[i].quote.terms.quoteId != log[k].quote.terms.quoteId
      && log[i].quote.terms.referenceKey != log[k].quote.terms.referenceKey
  {
    StepOf(cfg, states, log, k);
    forall i | 0 <= i < k && log[i].QuoteIssued?
      ensures log[i].quote.terms.quoteId != log[k].quote.terms.quoteId
      ensures log[i].quote.terms.referenceKey != log[k].quote.terms.referenceKey
    {
      hide Transition, Inv;
      var n := IssuedIsKept(cfg, states, log, i, k - 1);
      FreshKeys(cfg, states[k - 1], log[k], states[k], n);
    }
  }

  lemma FreshKeys(cfg: Config, s: State, e: Event, s': State, n: nat)
    requires e.QuoteIssued? && Transition(cfg, s, e, s') && n < |s.quotes|
    ensures s.quotes[n].terms.quoteId != e.quote.terms.quoteId
    ensures s.quotes[n].terms.referenceKey != e.quote.terms.referenceKey
  {
  }

  /** An issued quote stays where it is found by both its keys. */
  lemma IssuedIsKept(cfg: Config, states: seq<State>, log: seq<Event>, i: nat, k: nat) returns (n: nat)
    requires cfg.Sane() && History(cfg, states, log) && i <= k < |log| && log[i].QuoteIssued?
    ensures n < |states[k].quotes| && states[k].quotes[n].terms == log[i].quote.terms
    ensures QuoteById(states[k].quotes, log[i].quote.terms.quoteId) == n
    ensures QuoteByRef(states[k].quotes, log[i].quote.terms.referenceKey) == n
  {
    hide Transition, P.CertsSourced, P.PaymentsSourced;
    StateOf(cfg, states, log, k);
    assert P.Issues(log[..k + 1][i], log[i].quote.terms);
    assert P.Issued(log[..k + 1], log[i].quote.terms);
    n :| 0 <= n < |states[k].quotes| && states[k].quotes[n].terms == log[i].quote.terms;
  }

  lemma KeptWasIssued(cfg: Config, states: seq<State>, log: seq<Event>, k: nat, n: nat) returns (i: nat)
    requires cfg.Sane() && History(cfg, states, log) && k < |log| && n < |states[k].quotes|
    ensures i <= k && log[i].QuoteIssued? && log[i].quote.terms == states[k].quotes[n].terms
  {
    hide Transition, P.CertsSourced, P.PaymentsSourced, Inv;
    StateOf(cfg, states, log, k);
    assert P.QuoteFrom(log[..k + 1], states[k].quotes[n]);
    i :| 0 <= i < k + 1 && P.Issues(log[..k + 1][i], states[k].quotes[n].terms);
  }

  /** A quote can be bought until its time is up, and once. */
  lemma LiveExactly(cfg: Config, states: seq<State>, log: seq<Event>, i: nat, k: nat, n: nat, now: int)
    requires cfg.Sane() && History(cfg, states, log) && i <= k < |log| && log[k].ts <= now
    requires log[i].QuoteIssued? && n < |states[k].quotes| && states[k].quotes[n].terms == log[i].quote.terms
    ensures Live(states[k].quotes[n], now)
            <==> now <= log[i].ts + cfg.quoteTtlSeconds && !P.Activated(log[..k + 1], log[i].quote.terms.quoteId)
  {
    IssuedTerms(cfg, states, log, i);
    hide Transition, P.CertsSourced, P.PaymentsSourced, Inv, P.Activated;
    StateOf(cfg, states, log, k);
    assert P.QuoteFrom(log[..k + 1], states[k].quotes[n]);
  }

  /** A quote lapses after its time is up, unbought. */
  lemma LapsedTerms(cfg: Config, states: seq<State>, log: seq<Event>, k: nat) returns (i: nat)
    requires cfg.Sane() && History(cfg, states, log) && k < |log| && log[k].QuoteLapsed?
    ensures i < k && log[i].QuoteIssued? && log[i].quote.terms.quoteId == log[k].quoteId
    ensures log[i].ts + cfg.quoteTtlSeconds < log[k].ts
    ensures forall j :: 0 <= j < k ==> !P.Activates(log[j], log[k].quoteId)
  {
    StepOf(cfg, states, log, k);
    var s, n := states[k - 1], QuoteById(states[k - 1].quotes, log[k].quoteId);
    assert s.quotes[n].status == Open && log[k].ts > s.quotes[n].terms.validUntil;
    hide Transition, P.CertsSourced, P.PaymentsSourced, Inv;
    i := KeptWasIssued(cfg, states, log, k - 1, n);
    IssuedTerms(cfg, states, log, i);
    StateOf(cfg, states, log, k - 1);
    assert P.QuoteFrom(log[..k], s.quotes[n]);
    NeverActivated(log, k, log[k].quoteId);
  }

  lemma NeverActivated(log: seq<Event>, k: nat, id: Key)
    requires k <= |log| && !P.Activated(log[..k], id)
    ensures forall j :: 0 <= j < k ==> !P.Activates(log[j], id)
  {
    forall j | 0 <= j < k ensures !P.Activates(log[j], id) {
      assert !P.Activates(log[..k][j], id);
    }
  }

  // ---- Certificates ----

  /**
   * A certificate is activated on a quote issued before and still valid, by a payment credited before of
   * exactly its premium and collateral, under its reference, from the owner of the position, while the ledger
   * is not paused; it repeats the terms of the quote and runs for the tenor from that moment.
   */
  lemma ActivatedTerms(cfg: Config, states: seq<State>, log: seq<Event>, k: nat) returns (i: nat, m: nat)
    requires cfg.Sane() && History(cfg, states, log) && k < |log| && log[k].CertificateActivated?
    ensures i < k && log[i].QuoteIssued? && log[i].ts <= log[k].ts <= log[i].ts + cfg.quoteTtlSeconds
    ensures var t := log[i].quote.terms;
      log[k].cert == Cert(CertTerms(t.quoteId, t.position.mint, t.position.owner, t.premium, t.capDown, t.capUp,
                                    log[k].ts, log[k].ts + cfg.tenorSeconds), Active, None, None)
    ensures m < k && log[m].PaymentObserved?
    ensures var t, p := log[i].quote.terms, log[m].payment.terms;
      p.txSignature == log[k].txSignature && p.referenceKey == t.referenceKey && p.sender == t.position.owner
      && p.amount == t.premium + t.capUp
    ensures !P.PausedAfter(log[..k])
    ensures forall j :: 0 <= j < k ==> !P.Activates(log[j], log[k].cert.terms.quoteId) && !P.Spends(log[j], log[k].txSignature)
  {
    StepOf(cfg, states, log, k);
    var s := states[k - 1];
    var pi := PaymentByTx(s.payments, log[k].txSignature);
    var n := QuoteByRef(s.quotes, s.payments[pi].terms.referenceKey);
    assert Live(s.quotes[n], log[k].ts);
    i := KeptWasIssued(cfg, states, log, k - 1, n);
    IssuedTerms(cfg, states, log, i);
    ClockOfRun(cfg, states, log, i, k);
    m := KeptWasCredited(cfg, states, log, k - 1, pi);
    hide Transition, Inv;
    LiveExactly(cfg, states, log, i, k - 1, n, log[k].ts);
    NeverActivated(log, k, log[k].cert.terms.quoteId);
    UnspentExactly(cfg, states, log, k - 1, pi);
    NeverSpent(log, k, log[k].txSignature);
    StateOf(cfg, states, log, k - 1);
  }

  lemma NeverSpent(log: seq<Event>, k: nat, tx: Key)
    requires k <= |log| && !P.Spent(log[..k], tx)
    ensures forall j :: 0 <= j < k ==> !P.Spends(log[j], tx)
  {
    forall j | 0 <= j < k ensures !P.Spends(log[j], tx) {
      assert !P.Spends(log[..k][j], tx);
    }
  }

  lemma KeptWasCredited(cfg: Config, states: seq<State>, log: seq<Event>, k: nat, n: nat) returns (m: nat)
    requires cfg.Sane() && History(cfg, states, log) && k < |log| && n < |states[k].payments|
    ensures m <= k && log[m].PaymentObserved? && log[m].payment.terms == states[k].payments[n].terms
  {
    hide Transition, P.CertsSourced, P.QuotesSourced, Inv;
    StateOf(cfg, states, log, k);
    assert P.PaymentFrom(log[..k + 1], states[k].payments[n]);
    m :| 0 <= m < k + 1 && P.Credits(log[..k + 1][m], states[k].payments[n].terms);
  }

  lemma UnspentExactly(cfg: Config, states: seq<State>, log: seq<Event>, k: nat, n: nat)
    requires cfg.Sane() && History(cfg, states, log) && k < |log| && n < |states[k].payments|
    ensures states[k].payments[n].matched <==> P.Spent(log[..k + 1], states[k].payments[n].terms.txSignature)
  {
    hide Transition, P.CertsSourced, P.QuotesSourced, Inv, P.Spent;
    StateOf(cfg, states, log, k);
    assert P.PaymentFrom(log[..k + 1], states[k].payments[n]);
  }

  lemma CreditedIsKept(cfg: Config, states: seq<State>, log: seq<Event>, m: nat, k: nat) returns (n: nat)
    requires cfg.Sane() && History(cfg, states, log) && m <= k < |log| && log[m].PaymentObserved?
    ensures n < |states[k].payments| && states[k].payments[n].terms == log[m].payment.terms
    ensures PaymentByTx(states[k].payments, log[m].payment.terms.txSignature) == n
  {
    hide Transition, P.CertsSourced, P.QuotesSourced;
    StateOf(cfg, states, log, k);
    assert P.Credits(log[..k + 1][m], log[m].payment.terms);
    assert P.Credited(log[..k + 1], log[m].payment.terms);
    n :| 0 <= n < |states[k].payments| && states[k].payments[n].terms == log[m].payment.terms;
  }

  lemma KeptWasActivated(cfg: Config, states: seq<State>, log: seq<Event>, k: nat, n: nat) returns (i: nat)
    requires cfg.Sane() && History(cfg, states, log) && k < |log| && n < |states[k].certs|
    ensures i <= k && log[i].CertificateActivated? && log[i].cert.terms == states[k].certs[n].terms
    ensures states[k].certs[n].status != Active <==> P.SettledBy(log[..k + 1], states[k].certs[n].terms.quoteId)
  {
    hide Transition, P.PaymentsSourced, P.QuotesSourced, Inv, P.SettledBy;
    StateOf(cfg, states, log, k);
    assert P.CertFrom(log[..k + 1], states[k].certs[n]);
    i :| 0 <= i < k + 1 && log[..k + 1][i].CertificateActivated? && log[..k + 1][i].cert.terms == states[k].certs[n].terms;
  }

  lemma ActivatedIsKept(cfg: Config, states: seq<State>, log: seq<Event>, i: nat, k: nat) returns (n: nat)
    requires cfg.Sane() && History(cfg, states, log) && i <= k < |log| && log[i].CertificateActivated?
    ensures n < |states[k].certs| && states[k].certs[n].terms == log[i].cert.terms
    ensures CertById(states[k].certs, log[i].cert.terms.quoteId) == n
  {
    hide Transition, P.PaymentsSourced, P.QuotesSourced;
    StateOf(cfg, states, log, k);
    assert log[..k + 1][i].cert.terms == log[i].cert.terms;
    assert P.Certified(log[..k + 1], log[i].cert.terms);
    n :| 0 <= n < |states[k].certs| && states[k].certs[n].terms == log[i].cert.terms;
  }

  /** A certificate is settled once, and only when its tenor has run since it was activated. */
  lemma SettledAfterTenor(cfg: Config, states: seq<State>, log: seq<Event>, k: nat) returns (i: nat)
    requires cfg.Sane() && History(cfg, states, log) && k < |log| && log[k].CertificateSettled?
    ensures i < k && P.Activates(log[i], log[k].quoteId) && log[i].ts + cfg.tenorSeconds <= log[k].ts
    ensures forall j :: 0 <= j < k ==> !P.Settles(log[j], log[k].quoteId)
  {
    StepOf(cfg, states, log, k);
    var s, n := states[k - 1], CertById(states[k - 1].certs, log[k].quoteId);
    assert s.certs[n].status == Active && log[k].ts >= s.certs[n].terms.expiry;
    hide Transition, Inv;
    i := KeptWasActivated(cfg, states, log, k - 1, n);
    var q, m := ActivatedTerms(cfg, states, log, i);
    NeverSettled(log, k, log[k].quoteId);
  }

  lemma NeverSettled(log: seq<Event>, k: nat, id: Key)
    requires k <= |log| && !P.SettledBy(log[..k], id)
    ensures forall j :: 0 <= j < k ==> !P.Settles(log[j], id)
  {
    forall j | 0 <= j < k ensures !P.Settles(log[j], id) {
      assert !P.Settles(log[..k][j], id);
    }
  }

  /** Whenever a quote id is activated and settled in a run, the tenor lies between the two. */
  lemma TenorLiesBetween(cfg: Config, states: seq<State>, log: seq<Event>, i: nat, k: nat)
    requires cfg.Sane() && History(cfg, states, log) && i < |log| && k < |log|
    requires log[i].CertificateActivated? && log[k].CertificateSettled? && log[i].cert.terms.quoteId == log[k].quoteId
    ensures i < k && log[i].ts + cfg.tenorSeconds <= log[k].ts
  {
    hide Transition;
    var j := SettledAfterTenor(cfg, states, log, k);
    ActivatedOnce(cfg, states, log, i, j);
  }

  lemma ActivatedOnce(cfg: Config, states: seq<State>, log: seq<Event>, i: nat, j: nat)
    requires cfg.Sane() && History(cfg, states, log) && i < |log| && j < |log|
    requires log[i].CertificateActivated? && log[j].CertificateActivated?
    requires log[i].cert.terms.quoteId == log[j].cert.terms.quoteId
    ensures i == j
  {
    hide Transition;
    var a, b := if i < j then i else j, if i < j then j else i;
    var q, m := ActivatedTerms(cfg, states, log, b);
    if a < b {
      assert false;
    }
  }

  /**
   * A certificate is due exactly when it was activated, its tenor has run since, and no settlement of it
   * has been logged.
   */
  lemma DueExactly(cfg: Config, states: seq<State>, log: seq<Event>, k: nat, now: int, id: Key)
    requires cfg.Sane() && History(cfg, states, log) && k < |log|
    ensures (exists c :: c in Due(states[k].certs, now) && c.terms.quoteId == id)
            <==> && (exists i :: 0 <= i <= k && P.Activates(log[i], id) && log[i].ts + cfg.tenorSeconds <= now)
                 && forall j :: 0 <= j <= k ==> !P.Settles(log[j], id)
  {
    hide Transition, Due;
    if c :| c in Due(states[k].certs, now) && c.terms.quoteId == id {
      DueSound(states[k].certs, now, c);
      var n :| 0 <= n < |states[k].certs| && states[k].certs[n] == c;
      var i := KeptWasActivated(cfg, states, log, k, n);
      var q, m := ActivatedTerms(cfg, states, log, i);
      NeverSettled(log, k + 1, id);
      assert P.Activates(log[i], id) && log[i].ts + cfg.tenorSeconds <= now;
    }
    if i :| && 0 <= i <= k && P.Activates(log[i], id) && log[i].ts + cfg.tenorSeconds <= now
            && forall j :: 0 <= j <= k ==> !P.Settles(log[j], id) {
      var n := ActivatedIsKept(cfg, states, log, i, k);
      var i' := KeptWasActivated(cfg, states, log, k, n);
      var q, m := ActivatedTerms(cfg, states, log, i);
      NotSettledBy(log, k + 1, id);
      DueSound(states[k].certs, now, states[k].certs[n]);
    }
  }

  lemma NotSettledBy(log: seq<Event>, k: nat, id: Key)
    requires k <= |log| && forall j :: 0 <= j < k ==> !P.Settles(log[j], id)
    ensures !P.SettledBy(log[..k], id)
  {
  }

  /**
   * What a settlement in a run settles: with the quote issued at h and x its price held to the range of that
   * quote, the payoff pays for the fall of the position from its entry value to its value at x.
   */
  lemma SettledTerms(cfg: Config, states: seq<State>, log: seq<Event>, k: nat) returns (h: nat, x: real)
    requires cfg.Sane() && History(cfg, states, log) && k < |log| && log[k].CertificateSettled?
    ensures h < k && log[h].QuoteIssued? && log[h].quote.terms.quoteId == log[k].quoteId
    ensures var t, e := log[h].quote.terms, log[k];
      && HeldToRange(x, e.reading.price, t.priceLower, t.priceUpper)
      && PaysFall(e.payoff, t.entryValue as real - cfg.positionValue(t.position, x) * 1_000_000.0, t.capDown, t.capUp)
      && e.feeSplit >= 0
      && e.amount == (if e.payoff - e.feeSplit + t.capUp >= 0 then e.payoff - e.feeSplit + t.capUp else 0)
      && (e.finalStatus == Expired <==> e.payoff == 0) && (e.finalStatus == Settled <==> e.payoff != 0)
  {
    hide Transition, Inv, PaysFall, HeldToRange;
    StepOf(cfg, states, log, k);
    StateOf(cfg, states, log, k - 1);
    var n: nat;
    n, x := SettleFacts(cfg, states[k - 1], log[k - 1].ts, log[k], states[k]);
    h := KeptWasIssued(cfg, states, log, k - 1, n);
  }

  lemma SettleFacts(cfg: Config, s: State, now: int, e: Event, s': State) returns (n: nat, x: real)
    requires Inv(cfg, s, now) && e.CertificateSettled? && Transition(cfg, s, e, s')
    ensures n < |s.quotes| && s.quotes[n].terms.quoteId == e.quoteId
    ensures var t := s.quotes[n].terms;
      && HeldToRange(x, e.reading.price, t.priceLower, t.priceUpper)
      && PaysFall(e.payoff, t.entryValue as real - cfg.positionValue(t.position, x) * 1_000_000.0, t.capDown, t.capUp)
      && e.feeSplit >= 0
      && e.amount == (if e.payoff - e.feeSplit + t.capUp >= 0 then e.payoff - e.feeSplit + t.capUp else 0)
      && (e.finalStatus == Expired <==> e.payoff == 0) && (e.finalStatus == Settled <==> e.payoff != 0)
  {
    hide PaysFall, HeldToRange, Payoff;
    var i := CertById(s.certs, e.quoteId);
    assert CertOfQuote(s, s.certs[i].terms);
    n := QuoteById(s.quotes, e.quoteId);
    x := PayoffMeans(cfg, s.quotes[n].terms, s.certs[i].terms, e.reading.price);
  }

  // ---- Payments ----

  /** After k events the quote issued at i can still be bought by that payment. */
  ghost predicate Buys(cfg: Config, log: seq<Event>, i: nat, k: nat, now: int, p: PaymentTerms)
    requires i < k <= |log|
  {
    && log[i].QuoteIssued? && log[i].quote.terms.referenceKey == p.referenceKey
    && p.amount == log[i].quote.terms.premium + log[i].quote.terms.capUp
    && now <= log[i].ts + cfg.quoteTtlSeconds
    && forall j :: 0 <= j < k ==> !P.Activates(log[j], log[i].quote.terms.quoteId)
  }

  ghost predicate Wanted(cfg: Config, log: seq<Event>, k: nat, now: int, p: PaymentTerms)
    requires k <= |log|
  {
    exists i :: 0 <= i < k && Buys(cfg, log, i, k, now, p)
  }

  /**
   * A payment may be refunded exactly when no quote issued under its reference for exactly its amount is
   * within its time and unbought.
   */
  lemma RefundableExactly(cfg: Config, states: seq<State>, log: seq<Event>, k: nat, now: int, p: PaymentTerms)
    requires cfg.Sane() && History(cfg, states, log) && k < |log| && log[k].ts <= now
    ensures Refundable(states[k], now, p) <==> !Wanted(cfg, log, k + 1, now, p)
  {
    hide Transition, Inv;
    var s, n := states[k], QuoteByRef(states[k].quotes, p.referenceKey);
    if !Refundable(s, now, p) {
      var i := KeptWasIssued(cfg, states, log, k, n);
      IssuedTerms(cfg, states, log, i);
      LiveExactly(cfg, states, log, i, k, n, now);
      NeverActivated(log, k + 1, s.quotes[n].terms.quoteId);
      assert Buys(cfg, log, i, k + 1, now, p);
    }
    var after := k + 1;
    if i :| 0 <= i < after && Buys(cfg, log, i, after, now, p) {
      var m := IssuedIsKept(cfg, states, log, i, k);
      IssuedTerms(cfg, states, log, i);
      LiveExactly(cfg, states, log, i, k, m, now);
      NotActivated(log, k + 1, log[i].quote.terms.quoteId);
    }
  }

  lemma NotActivated(log: seq<Event>, k: nat, id: Key)
    requires k <= |log| && forall j :: 0 <= j < k ==> !P.Activates(log[j], id)
    ensures !P.Activated(log[..k], id)
  {
  }

  /**
   * A refund returns in full a payment credited before and not spent since, that no quote waits for; its
   * reason is that no quote was issued under the reference, or one for another amount, or else one for that
   * amount whose time is up or that is bought.
   */
  lemma RefundedTerms(cfg: Config, states: seq<State>, log: seq<Event>, k: nat) returns (m: nat)
    requires cfg.Sane() && History(cfg, states, log) && k < |log| && log[k].PaymentRefunded?
    ensures m < k && log[m].PaymentObserved? && log[m].payment.terms.txSignature == log[k].txSignature
    ensures log[k].amount == log[m].payment.terms.amount
    ensures forall j :: 0 <= j < k ==> !P.Spends(log[j], log[k].txSignature)
    ensures !Wanted(cfg, log, k, log[k].ts, log[m].payment.terms)
    ensures var p := log[m].payment.terms;
      && (log[k].reason == UnknownReference
          <==> forall i :: 0 <= i < k && log[i].QuoteIssued? ==> log[i].quote.terms.referenceKey != p.referenceKey)
      && forall i :: 0 <= i < k && log[i].QuoteIssued? && log[i].quote.terms.referenceKey == p.referenceKey ==>
           (log[k].reason == if p.amount == log[i].quote.terms.premium + log[i].quote.terms.capUp then QuoteNoLongerOpen
                             else WrongAmount)
  {
    StepOf(cfg, states, log, k);
    var s, pi := states[k - 1], PaymentByTx(states[k - 1].payments, log[k].txSignature);
    m := KeptWasCredited(cfg, states, log, k - 1, pi);
    var p := log[m].payment.terms;
    UnspentExactly(cfg, states, log, k - 1, pi);
    NeverSpent(log, k, log[k].txSignature);
    RefundableExactly(cfg, states, log, k - 1, log[k].ts, p);
    var n := QuoteByRef(s.quotes, p.referenceKey);
    if n < |s.quotes| {
      var h := KeptWasIssued(cfg, states, log, k - 1, n);
      assert log[h].quote.terms.referenceKey == p.referenceKey;
    }
    assert log[k].reason == RefundReasonFor(s, p);
    hide Transition, Inv;
    forall i | 0 <= i < k && log[i].QuoteIssued? && log[i].quote.terms.referenceKey == p.referenceKey
      ensures n < |s.quotes|
      ensures log[k].reason == if p.amount == log[i].quote.terms.premium + log[i].quote.terms.capUp then QuoteNoLongerOpen
                               else WrongAmount
    {
      var n' := IssuedIsKept(cfg, states, log, i, k - 1);
      IssuedTerms(cfg, states, log, i);
    }
  }

  // ---- What the ledger answers after k + 1 events ----

  /** A refund is answered from the credits, the spendings and the quotes of the log. */
  lemma RefundAnswers(cfg: Config, states: seq<State>, log: seq<Event>, k: nat, now: int, tx: Key)
    requires cfg.Sane() && History(cfg, states, log) && k < |log| && log[k].ts <= now
    ensures var r := RefundRefusal(states[k], now, tx);
      && (r == Some(UnknownPayment)
          <==> forall m :: 0 <= m <= k && log[m].PaymentObserved? ==> log[m].payment.terms.txSignature != tx)
      && (r == Some(AlreadyMatched) <==> exists m :: 0 <= m <= k && P.Spends(log[m], tx))
      && (forall m :: 0 <= m <= k && log[m].PaymentObserved? && log[m].payment.terms.txSignature == tx ==>
            && (r == Some(StillMatchable)
                <==> Wanted(cfg, log, k + 1, now, log[m].payment.terms) && !P.Spent(log[..k + 1], tx))
            && (r == None <==> !Wanted(cfg, log, k + 1, now, log[m].payment.terms) && !P.Spent(log[..k + 1], tx)))
  {
    hide Transition, Inv, Refundable, Wanted;
    var s, n := states[k], PaymentByTx(states[k].payments, tx);
    if n < |s.payments| {
      var m0 := KeptWasCredited(cfg, states, log, k, n);
      UnspentExactly(cfg, states, log, k, n);
    }
    SpentIsKnown(cfg, states, log, k, tx);
    forall m | 0 <= m <= k && log[m].PaymentObserved? && log[m].payment.terms.txSignature == tx
      ensures n < |s.payments| && s.payments[n].terms == log[m].payment.terms
      ensures Refundable(s, now, s.payments[n].terms) <==> !Wanted(cfg, log, k + 1, now, log[m].payment.terms)
    {
      var n' := CreditedIsKept(cfg, states, log, m, k);
      RefundableExactly(cfg, states, log, k, now, log[m].payment.terms);
    }
  }

  lemma SpentIsKnown(cfg: Config, states: seq<State>, log: seq<Event>, k: nat, tx: Key)
    requires cfg.Sane() && History(cfg, states, log) && k < |log|
    ensures P.Spent(log[..k + 1], tx) <==> exists m :: 0 <= m <= k && P.Spends(log[m], tx)
    ensures P.Spent(log[..k + 1], tx) ==> PaymentByTx(states[k].payments, tx) < |states[k].payments|
  {
    hide Transition, Inv;
    StateOf(cfg, states, log, k);
    if m :| 0 <= m <= k && P.Spends(log[m], tx) {
      assert P.Spends(log[..k + 1][m], tx);
    }
    if P.Spent(log[..k + 1], tx) {
      var m :| 0 <= m < k + 1 && P.Spends(log[..k + 1][m], tx);
      assert P.Spends(log[m], tx);
      var n :| 0 <= n < |states[k].payments| && states[k].payments[n].terms.txSignature == tx;
    }
  }

  /**
   * A settlement is answered from the activation and the settlement of the log: it is refused for negative
   * fees, for an id never activated, for one settled, and before the tenor has run; never for anything else.
   */
  lemma SettleAnswers(cfg: Config, states: seq<State>, log: seq<Event>, k: nat, now: int, id: Key, price: real, fees: int)
    requires cfg.Sane() && History(cfg, states, log) && k < |log|
    ensures var r := SettleRefusal(cfg, states[k], now, id, price, fees);
      if fees < 0 then r == Some(InvalidAmount)
      else if !P.Activated(log[..k + 1], id) then r == Some(UnknownCertificate)
      else if P.SettledBy(log[..k + 1], id) then r == Some(NotActive)
      else && (r == Some(NotExpired) || r == None)
           && forall i :: 0 <= i <= k && P.Activates(log[i], id) ==>
                (r == None <==> log[i].ts + cfg.tenorSeconds <= now)
  {
    hide Transition, Inv, SettleRefusal, P.SettledBy;
    var s, n := states[k], CertById(states[k].certs, id);
    ActivatedIsKnown(cfg, states, log, k, id);
    if n < |s.certs| {
      var i := KeptWasActivated(cfg, states, log, k, n);
      var h, m := ActivatedTerms(cfg, states, log, i);
      SettleRefusalMeans(cfg, states, log, k, n, now, price, fees);
      forall i' | 0 <= i' <= k && P.Activates(log[i'], id) ensures i' == i {
        ActivatedOnce(cfg, states, log, i, i');
      }
    } else {
      UnknownRefused(cfg, s, now, id, price, fees);
    }
  }

  lemma ActivatedIsKnown(cfg: Config, states: seq<State>, log: seq<Event>, k: nat, id: Key)
    requires cfg.Sane() && History(cfg, states, log) && k < |log|
    ensures P.Activated(log[..k + 1], id) <==> CertById(states[k].certs, id) < |states[k].certs|
  {
    hide Transition, Inv;
    StateOf(cfg, states, log, k);
    if P.Activated(log[..k + 1], id) {
      var i :| 0 <= i < k + 1 && P.Activates(log[..k + 1][i], id);
      var n := ActivatedIsKept(cfg, states, log, i, k);
    }
    if CertById(states[k].certs, id) < |states[k].certs| {
      var i := KeptWasActivated(cfg, states, log, k, CertById(states[k].certs, id));
      assert P.Activates(log[..k + 1][i], id);
    }
  }

  lemma UnknownRefused(cfg: Config, s: State, now: int, id: Key, price: real, fees: int)
    requires CertById(s.certs, id) == |s.certs|
    ensures SettleRefusal(cfg, s, now, id, price, fees) == if fees < 0 then Some(InvalidAmount) else Some(UnknownCertificate)
  {
  }

  lemma SettleRefusalMeans(cfg: Config, states: seq<State>, log: seq<Event>, k: nat, n: nat, now: int, price: real, fees: int)
    requires cfg.Sane() && History(cfg, states, log) && k < |log| && n < |states[k].certs|
    requires CertById(states[k].certs, states[k].certs[n].terms.quoteId) == n
    ensures var c := states[k].certs[n];
      SettleRefusal(cfg, states[k], now, c.terms.quoteId, price, fees)
      == if fees < 0 then Some(InvalidAmount) else if c.status != Active then Some(NotActive)
         else if now < c.terms.expiry then Some(NotExpired) else None
  {
    hide Transition;
    if fees >= 0 && states[k].certs[n].status == Active && now >= states[k].certs[n].terms.expiry {
      NoCertificateIsStuck(cfg, states, log, k, n, now, price, fees);
    }
  }

  /** After k events the quote issued at i is open to whoever pays for it. */
  ghost predicate Offers(cfg: Config, log: seq<Event>, i: nat, k: nat, now: int)
    requires i < k <= |log|
  {
    && log[i].QuoteIssued? && now <= log[i].ts + cfg.quoteTtlSeconds
    && forall j :: 0 <= j < k ==> !P.Activates(log[j], log[i].quote.terms.quoteId)
  }

  /** After k events the certificate activated at i is not settled. */
  ghost predicate Covers(log: seq<Event>, i: nat, k: nat)
    requires i < k <= |log|
  {
    && log[i].CertificateActivated?
    && forall j :: 0 <= j < k ==> !P.Settles(log[j], log[i].cert.terms.quoteId)
  }

  ghost predicate Quoted(cfg: Config, log: seq<Event>, k: nat, now: int, mint: Key)
    requires k <= |log|
  {
    exists i :: 0 <= i < k && Offers(cfg, log, i, k, now) && log[i].quote.terms.position.mint == mint
  }

  ghost predicate Protected(log: seq<Event>, k: nat, mint: Key)
    requires k <= |log|
  {
    exists i :: 0 <= i < k && Covers(log, i, k) && log[i].cert.terms.mint == mint
  }

  lemma QuotedExactly(cfg: Config, states: seq<State>, log: seq<Event>, k: nat, now: int, mint: Key)
    requires cfg.Sane() && History(cfg, states, log) && k < |log| && log[k].ts <= now
    ensures HasLiveQuote(states[k].quotes, now, mint) <==> Quoted(cfg, log, k + 1, now, mint)
  {
    hide Transition, Inv;
    var qs := states[k].quotes;
    if HasLiveQuote(qs, now, mint) {
      var n :| 0 <= n < |qs| && LiveFor(qs[n], now, mint);
      var i := KeptWasIssued(cfg, states, log, k, n);
      LiveExactly(cfg, states, log, i, k, n, now);
      NeverActivated(log, k + 1, qs[n].terms.quoteId);
      assert Offers(cfg, log, i, k + 1, now);
    }
    var after := k + 1;
    if i :| 0 <= i < after && Offers(cfg, log, i, after, now) && log[i].quote.terms.position.mint == mint {
      var n := IssuedIsKept(cfg, states, log, i, k);
      NotActivated(log, k + 1, log[i].quote.terms.quoteId);
      LiveExactly(cfg, states, log, i, k, n, now);
      assert LiveFor(qs[n], now, mint);
    }
  }

  lemma ProtectedExactly(cfg: Config, states: seq<State>, log: seq<Event>, k: nat, mint: Key)
    requires cfg.Sane() && History(cfg, states, log) && k < |log|
    ensures HasActiveCert(states[k].certs, mint) <==> Protected(log, k + 1, mint)
  {
    hide Transition, Inv;
    var cs := states[k].certs;
    if HasActiveCert(cs, mint) {
      var n :| 0 <= n < |cs| && Protects(cs[n], mint);
      var i := KeptWasActivated(cfg, states, log, k, n);
      NeverSettled(log, k + 1, cs[n].terms.quoteId);
      assert Covers(log, i, k + 1);
    }
    var after := k + 1;
    if i :| 0 <= i < after && Covers(log, i, after) && log[i].cert.terms.mint == mint {
      var n := ActivatedIsKept(cfg, states, log, i, k);
      var i' := KeptWasActivated(cfg, states, log, k, n);
      NotSettledBy(log, k + 1, log[i].cert.terms.quoteId);
      assert Protects(cs[n], mint);
    }
  }

  lemma {:induction false} QuotesAreCounted(cfg: Config, states: seq<State>, log: seq<Event>, k: nat)
    requires History(cfg, states, log) && k < |log|
    ensures |states[k].quotes| == Sum(log[..k + 1], (e: Event) => if e.QuoteIssued? then 1 else 0)
  {
    hide Payoff, Sum;
    var w := (e: Event) => if e.QuoteIssued? then 1 else 0;
    if k == 0 {
      assert log[..1] == [] + [log[0]];
      SumAppend([], log[0], w);
      SumZero([], w);
    } else {
      QuotesAreCounted(cfg, states, log, k - 1);
      StepOf(cfg, states, log, k) by { OpensFirst(cfg, states, log, k); }
      assert log[..k + 1] == log[..k] + [log[k]];
      SumAppend(log[..k], log[k], w);
    }
  }

  /** Exposure after one more certificate, against the treasury less other people's money. */
  ghost predicate Fits(cfg: Config, s: State, capDown: nat) {
    var exposure := Sum(s.certs, (c: Cert) => if c.status == Active then c.terms.capDown else 0);
    var collateral := Sum(s.certs, (c: Cert) => if c.status == Active then c.terms.capUp else 0);
    var unspent := Sum(s.payments, (p: Payment) => if p.matched then 0 else p.terms.amount);
    (exposure + capDown) * 10_000 <= (s.treasury - unspent - collateral) * cfg.uMaxBps
  }

  lemma FitsIsHeadroom(cfg: Config, s: State, capDown: nat)
    ensures Headroom(cfg, s, capDown) <==> Fits(cfg, s, capDown)
  {
    SumSame(s.certs, CapDownOf, (c: Cert) => if c.status == Active then c.terms.capDown else 0);
    SumSame(s.certs, CollateralOf, (c: Cert) => if c.status == Active then c.terms.capUp else 0);
    SumSame(s.payments, FloatOf, (p: Payment) => if p.matched then 0 else p.terms.amount);
  }

  /** A quote is refused for the first of these reasons, and else issued. */
  lemma IssueAnswers(cfg: Config, states: seq<State>, log: seq<Event>, k: nat, now: int, pos: Position,
                     regimeUpdatedAt: int, priced: Option<Priced>)
    requires cfg.Sane() && History(cfg, states, log) && k < |log| && log[k].ts <= now
    ensures var qs := states[k].quotes;
      QuoteRefusal(cfg, states[k], now, pos, regimeUpdatedAt, priced)
      == if P.PausedAfter(log[..k + 1]) then Some(QuotingPaused)
         else if now - regimeUpdatedAt > cfg.regimeMaxAgeSeconds then Some(RegimeStale)
         else if Quoted(cfg, log, k + 1, now, pos.mint) then Some(OpenQuoteExists)
         else if Protected(log, k + 1, pos.mint) then Some(AlreadyProtected)
         else if cfg.maxLifetimeQuotes > 0 && Sum(log[..k + 1], (e: Event) => if e.QuoteIssued? then 1 else 0) >= cfg.maxLifetimeQuotes
           then Some(QuoteCeiling)
         else if cfg.maxOpenQuotesPerOwner > 0
                 && |set n | 0 <= n < |qs| && qs[n].status == Open && now <= qs[n].terms.validUntil
                             && qs[n].terms.position.owner == pos.owner| >= cfg.maxOpenQuotesPerOwner
           then Some(TooManyOpenQuotes)
         else if priced.None? then Some(PricingRefused)
         else if !Fits(cfg, states[k], priced.value.capDown) then Some(HeadroomExceeded)
         else None
  {
    QuotedExactly(cfg, states, log, k, now, pos.mint);
    ProtectedExactly(cfg, states, log, k, pos.mint);
    QuotesAreCounted(cfg, states, log, k);
    OpenQuotesCounted(states[k].quotes, now, pos.owner);
    if priced.Some? {
      FitsIsHeadroom(cfg, states[k], priced.value.capDown);
    }
    StateOf(cfg, states, log, k);
    hide History, Inv, Headroom, Fits, HasLiveQuote, HasActiveCert, LiveQuotesOf, Quoted, Protected, Sum;
  }

  /**
   * A payment activates exactly when the ledger is not paused, a quote waits for it from its sender, and the
   * buyer and the pool can carry one more certificate.
   */
  lemma ActivatesExactly(cfg: Config, states: seq<State>, log: seq<Event>, k: nat, now: int, p: PaymentTerms)
    requires cfg.Sane() && History(cfg, states, log) && k < |log| && log[k].ts <= now
    ensures Activates(cfg, states[k], now, p)
            <==> && !P.PausedAfter(log[..k + 1])
                 && exists i :: 0 <= i <= k && log[i].QuoteIssued? && Buyer(cfg, states[k], log, i, k + 1, now, p)
  {
    hide Inv;
    var s, n := states[k], QuoteByRef(states[k].quotes, p.referenceKey);
    StateOf(cfg, states, log, k);
    if n < |s.quotes| {
      var i := KeptWasIssued(cfg, states, log, k, n);
      BuyerIs(cfg, states, log, i, k, n, now, p);
    }
    forall i | 0 <= i <= k && log[i].QuoteIssued? && Buyer(cfg, s, log, i, k + 1, now, p)
      ensures Activates(cfg, s, now, p) || s.paused
    {
      var n' := IssuedIsKept(cfg, states, log, i, k);
      BuyerIs(cfg, states, log, i, k, n', now, p);
    }
  }

  /** The quote issued at i waits for that payment, from the owner of its position, and fits every limit. */
  ghost predicate Buyer(cfg: Config, s: State, log: seq<Event>, i: nat, k: nat, now: int, p: PaymentTerms)
    requires i < k <= |log|
  {
    && Buys(cfg, log, i, k, now, p)
    && p.sender == log[i].quote.terms.position.owner
    && Fits(cfg, s, log[i].quote.terms.capDown)
    && (cfg.perBuyerCapDownLimit > 0 ==>
          Sum(s.certs, (c: Cert) => if c.status == Active && c.terms.buyer == p.sender then c.terms.capDown else 0)
          + log[i].quote.terms.capDown <= cfg.perBuyerCapDownLimit)
  }

  lemma BuyerIs(cfg: Config, states: seq<State>, log: seq<Event>, i: nat, k: nat, n: nat, now: int, p: PaymentTerms)
    requires cfg.Sane() && History(cfg, states, log) && i <= k < |log| && log[k].ts <= now
    requires log[i].QuoteIssued? && n < |states[k].quotes| && states[k].quotes[n].terms == log[i].quote.terms
    requires log[i].quote.terms.referenceKey == p.referenceKey && QuoteByRef(states[k].quotes, p.referenceKey) == n
    ensures Buyer(cfg, states[k], log, i, k + 1, now, p) && !states[k].paused <==> Activates(cfg, states[k], now, p)
  {
    hide Transition, Inv, Headroom, Fits;
    var s, t := states[k], log[i].quote.terms;
    IssuedTerms(cfg, states, log, i);
    LiveExactly(cfg, states, log, i, k, n, now);
    if P.Activated(log[..k + 1], t.quoteId) {
    } else {
      NeverActivated(log, k + 1, t.quoteId);
    }
    if forall j :: 0 <= j <= k ==> !P.Activates(log[j], t.quoteId) {
      NotActivated(log, k + 1, t.quoteId);
    }
    ActivatedIsKnown(cfg, states, log, k, t.quoteId);
    FitsIsHeadroom(cfg, s, t.capDown);
    SumSame(s.certs, ExposureOf(p.sender),
            (c: Cert) => if c.status == Active && c.terms.buyer == p.sender then c.terms.capDown else 0);
  }
}
