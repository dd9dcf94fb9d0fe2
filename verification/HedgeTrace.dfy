/** Every micro-USDC of the ledger, traced through its log: credited once, spent at most once. */
module HedgeTrace {
  import opened Outcomes
  import opened HedgeTypes
  import opened HedgeInvariants
  import opened HedgeTransitions
  import opened HedgeSafety
  import opened HedgeRuns
  import opened Sums

  // ---- Counting the events about one key ----

  function Credits(tx: Key): Event -> int {
    (e: Event) => if e.PaymentObserved? && e.payment.terms.txSignature == tx then 1 else 0
  }

  function Refunds(tx: Key): Event -> int {
    (e: Event) => if e.PaymentRefunded? && e.txSignature == tx then 1 else 0
  }

  function Activations(tx: Key): Event -> int {
    (e: Event) => if e.CertificateActivated? && e.txSignature == tx then 1 else 0
  }

  function Issues(id: Key): Event -> int {
    (e: Event) => if e.CertificateActivated? && e.cert.terms.quoteId == id then 1 else 0
  }

  function SettlementsOf(id: Key): Event -> int {
    (e: Event) => if e.CertificateSettled? && e.quoteId == id then 1 else 0
  }

  function Inflow(e: Event): int { if e.PaymentObserved? then e.payment.terms.amount else 0 }
  function Refunded(e: Event): int { if e.PaymentRefunded? then e.amount else 0 }
  function PaidOut(e: Event): int { if e.CertificateSettled? then e.amount else 0 }

  // ---- What a record contributes to the totals ----

  function AmountOf(p: Payment): int { p.terms.amount }
  function SpentOf(p: Payment): int { if p.matched then p.terms.amount else 0 }
  function PriceOf(c: Cert): int { c.terms.premium + c.terms.capUp }
  function PayoutOf(c: Cert): int { if c.settlement.Some? then c.settlement.value.amount else 0 }

  // ---- The trace invariant ----

  ghost predicate PaymentCounts(ps: seq<Payment>, log: seq<Event>, tx: Key) {
    var i := PaymentByTx(ps, tx);
    && Sum(log, Credits(tx)) == (if i < |ps| then 1 else 0)
    && Sum(log, Refunds(tx)) + Sum(log, Activations(tx)) == (if i < |ps| && ps[i].matched then 1 else 0)
    && Sum(log, Refunds(tx)) >= 0 && Sum(log, Activations(tx)) >= 0
  }

  ghost predicate CertCounts(cs: seq<Cert>, log: seq<Event>, id: Key) {
    var i := CertById(cs, id);
    && Sum(log, Issues(id)) == (if i < |cs| then 1 else 0)
    && Sum(log, SettlementsOf(id)) == (if i < |cs| && cs[i].status != Active then 1 else 0)
  }

  /** The books: log totals, record totals and counters are three views of the same money. */
  ghost predicate Books(s: State, log: seq<Event>) {
    && s.totalIn == Sum(log, Inflow) == Sum(s.payments, AmountOf)
    && s.totalRefunded == Sum(log, Refunded)
    && s.totalSettled == Sum(log, PaidOut) == Sum(s.certs, PayoutOf)
    && Sum(s.payments, SpentOf) == s.totalRefunded + Sum(s.certs, PriceOf)
  }

  /** The payment an activation consumed: exact amount, from the owner, under the quote's reference. */
  ghost predicate ActivationBacked(s: State, c: CertTerms, tx: Key) {
    var i, k := PaymentByTx(s.payments, tx), QuoteById(s.quotes, c.quoteId);
    && i < |s.payments| && k < |s.quotes|
    && s.payments[i].matched
    && s.payments[i].terms.amount == c.premium + c.capUp
    && s.payments[i].terms.sender == c.buyer == s.quotes[k].terms.position.owner
    && s.payments[i].terms.referenceKey == s.quotes[k].terms.referenceKey
  }

  ghost predicate ActivationsBacked(s: State, log: seq<Event>) {
    forall k :: 0 <= k < |log| && log[k].CertificateActivated? ==>
      ActivationBacked(s, log[k].cert.terms, log[k].txSignature)
  }

  ghost predicate Traced(s: State, log: seq<Event>) {
    && (forall tx :: PaymentCounts(s.payments, log, tx))
    && (forall id :: CertCounts(s.certs, log, id))
    && Books(s, log)
    && ActivationsBacked(s, log)
  }

  // ---- One commit ----

  lemma PaymentIndexKept(ps: seq<Payment>, ps': seq<Payment>, tx: Key)
    requires |ps| == |ps'| && forall k :: 0 <= k < |ps| ==> ps'[k].terms == ps[k].terms
    ensures PaymentByTx(ps', tx) == PaymentByTx(ps, tx)
  {
    var a, b := PaymentByTx(ps, tx), PaymentByTx(ps', tx);
    assert a < |ps| ==> ps'[a].terms == ps[a].terms;
    assert b < |ps| ==> ps'[b].terms == ps[b].terms;
  }

  lemma PaymentIndexAppend(ps: seq<Payment>, p: Payment, tx: Key)
    ensures PaymentByTx(ps + [p], tx) ==
            if PaymentByTx(ps, tx) < |ps| || p.terms.txSignature == tx then PaymentByTx(ps, tx) else |ps| + 1
  {
    assert (ps + [p])[..|ps|] == ps;
  }

  lemma CertIndexKept(cs: seq<Cert>, cs': seq<Cert>, id: Key)
    requires |cs| == |cs'| && forall k :: 0 <= k < |cs| ==> cs'[k].terms == cs[k].terms
    ensures CertById(cs', id) == CertById(cs, id)
  {
    var a, b := CertById(cs, id), CertById(cs', id);
    assert a < |cs| ==> cs'[a].terms == cs[a].terms;
    assert b < |cs| ==> cs'[b].terms == cs[b].terms;
  }

  lemma CertIndexAppend(cs: seq<Cert>, c: Cert, id: Key)
    ensures CertById(cs + [c], id) ==
            if CertById(cs, id) < |cs| || c.terms.quoteId == id then CertById(cs, id) else |cs| + 1
  {
    assert (cs + [c])[..|cs|] == cs;
  }

  lemma PaymentCountsStep(cfg: Config, s: State, log: seq<Event>, e: Event, s': State, tx: Key)
    requires PaymentCounts(s.payments, log, tx) && Transition(cfg, s, e, s')
    ensures PaymentCounts(s'.payments, log + [e], tx)
  {
    SumAppend(log, e, Credits(tx));
    SumAppend(log, e, Refunds(tx));
    SumAppend(log, e, Activations(tx));
    if e.PaymentObserved? {
      PaymentIndexAppend(s.payments, e.payment, tx);
    } else {
      PaymentIndexKept(s.payments, s'.payments, tx);
    }
  }

  lemma CertCountsStep(cfg: Config, s: State, log: seq<Event>, e: Event, s': State, id: Key)
    requires CertCounts(s.certs, log, id) && Transition(cfg, s, e, s')
    ensures CertCounts(s'.certs, log + [e], id)
  {
    hide QuoteById, QuoteByRef, PaymentByTx, CertById, Payoff, SettlementAmount, Sum;
    SumAppend(log, e, Issues(id));
    SumAppend(log, e, SettlementsOf(id));
    if e.CertificateActivated? {
      CertIndexAppend(s.certs, e.cert, id);
      assert CertById(s.certs, e.cert.terms.quoteId) == |s.certs|;
    } else {
      CertIndexKept(s.certs, s'.certs, id);
    }
  }

  lemma BooksStep(cfg: Config, s: State, log: seq<Event>, e: Event, s': State)
    requires PayablesAddUp(s.quotes) && SettledProperly(s.certs)
    requires Books(s, log) && Transition(cfg, s, e, s')
    ensures Books(s', log + [e])
  {
    SumAppend(log, e, Inflow);
    SumAppend(log, e, Refunded);
    SumAppend(log, e, PaidOut);
    if e.PaymentObserved? {
      SumAppend(s.payments, e.payment, AmountOf);
      SumAppend(s.payments, e.payment, SpentOf);
    } else if e.PaymentRefunded? {
      SpendPayment(s.payments, PaymentByTx(s.payments, e.txSignature));
    } else if e.CertificateActivated? {
      ActivationBooks(cfg, s, e, s');
    } else if e.CertificateSettled? || e.FeeCheckpointRecorded? {
      RewriteBooks(cfg, s, e, s');
    }
  }

  lemma RewriteBooks(cfg: Config, s: State, e: Event, s': State)
    requires SettledProperly(s.certs) && Transition(cfg, s, e, s')
    requires e.CertificateSettled? || e.FeeCheckpointRecorded?
    ensures Sum(s'.certs, PriceOf) == Sum(s.certs, PriceOf)
    ensures Sum(s'.certs, PayoutOf) == Sum(s.certs, PayoutOf) + PaidOut(e)
  {
    var n := CertById(s.certs, e.quoteId);
    RewriteCertBooks(s.certs, n, s'.certs[n]);
  }

  lemma ActivationBooks(cfg: Config, s: State, e: Event, s': State)
    requires e.CertificateActivated? && Transition(cfg, s, e, s') && PayablesAddUp(s.quotes)
    ensures Sum(s'.payments, AmountOf) == Sum(s.payments, AmountOf)
    ensures Sum(s'.certs, PayoutOf) == Sum(s.certs, PayoutOf)
    ensures Sum(s'.payments, SpentOf) - Sum(s.payments, SpentOf) == Sum(s'.certs, PriceOf) - Sum(s.certs, PriceOf)
  {
    var pi := PaymentByTx(s.payments, e.txSignature);
    var qi := QuoteByRef(s.quotes, s.payments[pi].terms.referenceKey);
    assert s.quotes[qi].terms.totalPayable == s.quotes[qi].terms.premium + s.quotes[qi].terms.capUp;
    SpendPayment(s.payments, pi);
    SumAppend(s.certs, e.cert, PayoutOf);
    SumAppend(s.certs, e.cert, PriceOf);
  }

  lemma RewriteCertBooks(cs: seq<Cert>, n: nat, c: Cert)
    requires n < |cs| && c.terms == cs[n].terms
    ensures Sum(cs[n := c], PriceOf) == Sum(cs, PriceOf)
    ensures Sum(cs[n := c], PayoutOf) == Sum(cs, PayoutOf) - PayoutOf(cs[n]) + PayoutOf(c)
  {
    SumUpdate(cs, n, c, PayoutOf);
    SumUpdate(cs, n, c, PriceOf);
  }

  lemma SpendPayment(ps: seq<Payment>, i: nat)
    requires i < |ps| && !ps[i].matched
    ensures var ps' := ps[i := ps[i].(matched := true)];
      && Sum(ps', AmountOf) == Sum(ps, AmountOf)
      && Sum(ps', SpentOf) == Sum(ps, SpentOf) + ps[i].terms.amount
  {
    SumUpdate(ps, i, ps[i].(matched := true), AmountOf);
    SumUpdate(ps, i, ps[i].(matched := true), SpentOf);
  }

  lemma TransitionGrows(cfg: Config, s: State, e: Event, s': State)
    requires Transition(cfg, s, e, s')
    ensures Grows(s, s')
  {
  }

  lemma SamePaymentIndex(ps: seq<Payment>, ps': seq<Payment>, tx: Key)
    requires |ps| <= |ps'| && forall k :: 0 <= k < |ps| ==> ps'[k].terms == ps[k].terms
    requires PaymentByTx(ps, tx) < |ps|
    ensures PaymentByTx(ps', tx) == PaymentByTx(ps, tx)
  {
    var a, b := PaymentByTx(ps, tx), PaymentByTx(ps', tx);
    assert ps'[a].terms == ps[a].terms;
    assert forall k :: 0 <= k < a ==> ps'[k].terms == ps[k].terms;
  }

  lemma BackedGrows(s: State, s': State, c: CertTerms, tx: Key)
    requires Grows(s, s') && ActivationBacked(s, c, tx)
    ensures ActivationBacked(s', c, tx)
  {
    SamePaymentIndex(s.payments, s'.payments, tx);
    SameIndex(s.quotes, s'.quotes, c.quoteId);
  }

  lemma NewActivationBacked(cfg: Config, s: State, now: int, e: Event, s': State)
    requires Inv(cfg, s, now) && Transition(cfg, s, e, s') && e.CertificateActivated?
    ensures ActivationBacked(s', e.cert.terms, e.txSignature)
  {
    var pi := PaymentByTx(s.payments, e.txSignature);
    var qi := QuoteByRef(s.quotes, s.payments[pi].terms.referenceKey);
    assert QuoteById(s.quotes, s.quotes[qi].terms.quoteId) == qi;
    SamePaymentIndex(s.payments, s'.payments, e.txSignature);
    SameIndex(s.quotes, s'.quotes, s.quotes[qi].terms.quoteId);
    assert s.quotes[qi].terms.totalPayable == s.quotes[qi].terms.premium + s.quotes[qi].terms.capUp;
  }

  lemma ActivationsBackedStep(cfg: Config, s: State, log: seq<Event>, now: int, e: Event, s': State)
    requires Inv(cfg, s, now) && ActivationsBacked(s, log) && Transition(cfg, s, e, s')
    ensures ActivationsBacked(s', log + [e])
  {
    TransitionGrows(cfg, s, e, s');
    var l := log + [e];
    forall k | 0 <= k < |l| && l[k].CertificateActivated?
      ensures ActivationBacked(s', l[k].cert.terms, l[k].txSignature)
    {
      if k < |log| {
        BackedGrows(s, s', log[k].cert.terms, log[k].txSignature);
      } else {
        NewActivationBacked(cfg, s, now, e, s');
      }
    }
  }

  lemma TraceStep(cfg: Config, s: State, log: seq<Event>, now: int, e: Event, s': State)
    requires Inv(cfg, s, now) && Traced(s, log) && Transition(cfg, s, e, s')
    ensures Traced(s', log + [e])
  {
    forall tx ensures PaymentCounts(s'.payments, log + [e], tx) {
      PaymentCountsStep(cfg, s, log, e, s', tx);
    }
    forall id ensures CertCounts(s'.certs, log + [e], id) {
      CertCountsStep(cfg, s, log, e, s', id);
    }
    BooksStep(cfg, s, log, e, s');
    ActivationsBackedStep(cfg, s, log, now, e, s');
  }

  // ---- Whole runs ----

  lemma OpeningTraced(e: Event)
    requires e.LedgerOpened?
    ensures Traced(OpenedState(e.initialReserves), [e])
  {
    var l := [e];
    assert l[..0] == [];
    forall tx ensures PaymentCounts([], l, tx) {}
    forall id ensures CertCounts([], l, id) {}
  }

  lemma {:induction false} RunIsTraced(cfg: Config, states: seq<State>, log: seq<Event>)
    requires cfg.Sane() && History(cfg, states, log)
    ensures Traced(states[|log| - 1], log)
  {
    hide Traced, Inv, Transition;
    var n := |log| - 1;
    if n == 0 {
      OpeningTraced(log[0]);
      assert log == [log[0]];
    } else {
      HistoryPrefix(cfg, states, log, n);
      RunIsTraced(cfg, states[..n], log[..n]);
      InvariantOfRun(cfg, states, log);
      TraceStep(cfg, states[n - 1], log[..n], log[n - 1].ts, log[n], states[n]);
      assert log[..n] + [log[n]] == log;
    }
  }

  /**
   * A signature is credited at most once and spent at most once, by one activation or one refund and
   * only after it was credited; a certificate is issued and settled at most once.
   */
  lemma ExactlyOnce(cfg: Config, states: seq<State>, log: seq<Event>, tx: Key, id: Key)
    requires cfg.Sane() && History(cfg, states, log)
    ensures 0 <= Sum(log, Refunds(tx)) && 0 <= Sum(log, Activations(tx))
    ensures Sum(log, Refunds(tx)) + Sum(log, Activations(tx)) <= Sum(log, Credits(tx)) <= 1
    ensures Sum(log, SettlementsOf(id)) <= Sum(log, Issues(id)) <= 1
  {
    RunIsTraced(cfg, states, log);
    var s := states[|log| - 1];
    assert PaymentCounts(s.payments, log, tx) && CertCounts(s.certs, log, id);
  }

  /**
   * Every certificate is backed by its own payment: exact, from the owner of the position, under the
   * reference of its quote, never refunded and never used by another activation.
   */
  lemma CertificatesHaveTheirOwnPayment(cfg: Config, states: seq<State>, log: seq<Event>, k: nat)
    requires cfg.Sane() && History(cfg, states, log)
    requires k < |log| && log[k].CertificateActivated?
    ensures ActivationBacked(states[|log| - 1], log[k].cert.terms, log[k].txSignature)
    ensures Sum(log, Refunds(log[k].txSignature)) == 0
    ensures forall j :: 0 <= j < |log| && j != k && log[j].CertificateActivated? ==>
      log[j].txSignature != log[k].txSignature
  {
    RunIsTraced(cfg, states, log);
    var tx := log[k].txSignature;
    ExactlyOnce(cfg, states, log, tx, log[k].cert.terms.quoteId);
    SumDominates(log, k, Activations(tx));
    forall j | 0 <= j < |log| && j != k && log[j].CertificateActivated? ensures log[j].txSignature != tx {
      SumDominatesPair(log, if j < k then j else k, if j < k then k else j, Activations(tx));
    }
  }

  /**
   * Conservation over a whole run: the treasury is the opening reserves plus what came in minus what
   * was settled and refunded, and every matched payment went to a refund or to a certificate.
   */
  lemma MoneyIsConserved(cfg: Config, states: seq<State>, log: seq<Event>)
    requires cfg.Sane() && History(cfg, states, log)
    ensures var s := states[|log| - 1];
      && s.treasury == log[0].initialReserves + Sum(log, Inflow) - Sum(log, PaidOut) - Sum(log, Refunded)
      && Sum(log, Inflow) == Sum(s.payments, AmountOf)
      && Sum(log, PaidOut) == Sum(s.certs, PayoutOf)
      && Sum(s.payments, SpentOf) == Sum(log, Refunded) + Sum(s.certs, PriceOf)
  {
    RunIsTraced(cfg, states, log);
    InvariantOfRun(cfg, states, log);
    ReservesStay(cfg, states, log);
  }

  lemma {:induction false} ReservesStay(cfg: Config, states: seq<State>, log: seq<Event>)
    requires History(cfg, states, log)
    ensures states[|log| - 1].initialReserves == log[0].initialReserves
  {
    var n := |log| - 1;
    if n > 0 {
      HistoryPrefix(cfg, states, log, n);
      ReservesStay(cfg, states[..n], log[..n]);
      assert Transition(cfg, states[n - 1], log[n], states[n]);
    }
  }
}
