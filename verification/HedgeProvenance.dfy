/**
 * Where every record of the ledger comes from: what the log alone says about quotes, payments and
 * certificates, and that the ledger's records say the same.
 */
module HedgeProvenance {
  import opened HedgeTypes
  import opened HedgeTransitions
  import opened HedgeSafety
  import opened HedgeRuns

  // ---- What the log says ----

  ghost predicate Issues(e: Event, t: QuoteTerms) { e.QuoteIssued? && e.quote.terms == t }
  ghost predicate Activates(e: Event, id: Key) { e.CertificateActivated? && e.cert.terms.quoteId == id }
  ghost predicate Settles(e: Event, id: Key) { e.CertificateSettled? && e.quoteId == id }
  ghost predicate Credits(e: Event, p: PaymentTerms) { e.PaymentObserved? && e.payment.terms == p }

  ghost predicate Spends(e: Event, tx: Key) {
    (e.CertificateActivated? && e.txSignature == tx) || (e.PaymentRefunded? && e.txSignature == tx)
  }

  ghost predicate Issued(log: seq<Event>, t: QuoteTerms) { exists i :: 0 <= i < |log| && Issues(log[i], t) }
  ghost predicate Activated(log: seq<Event>, id: Key) { exists i :: 0 <= i < |log| && Activates(log[i], id) }
  ghost predicate SettledBy(log: seq<Event>, id: Key) { exists i :: 0 <= i < |log| && Settles(log[i], id) }
  ghost predicate Credited(log: seq<Event>, p: PaymentTerms) { exists i :: 0 <= i < |log| && Credits(log[i], p) }
  ghost predicate Spent(log: seq<Event>, tx: Key) { exists i :: 0 <= i < |log| && Spends(log[i], tx) }

  ghost predicate Certified(log: seq<Event>, c: CertTerms) {
    exists i :: 0 <= i < |log| && log[i].CertificateActivated? && log[i].cert.terms == c
  }

  /** The last switch was to paused. */
  ghost function PausedAfter(log: seq<Event>): bool {
    if log == [] then false
    else
      var e := log[|log| - 1];
      if e.PausedSet? then e.paused else PausedAfter(log[..|log| - 1])
  }

  // ---- What the records say ----

  ghost predicate QuoteFrom(log: seq<Event>, q: Quote)
    requires |log| > 0
  {
    && Issued(log, q.terms)
    && (q.status == Consumed <==> Activated(log, q.terms.quoteId))
    && (q.status == Lapsed ==> q.terms.validUntil < log[|log| - 1].ts)
  }

  ghost predicate QuotesSourced(qs: seq<Quote>, log: seq<Event>) {
    && |log| > 0
    && (forall n :: 0 <= n < |qs| ==> QuoteFrom(log, qs[n]))
    && (forall t :: Issued(log, t) ==> exists n :: 0 <= n < |qs| && qs[n].terms == t)
    && (forall id :: Activated(log, id) ==> exists n :: 0 <= n < |qs| && qs[n].terms.quoteId == id)
  }

  ghost predicate CertFrom(log: seq<Event>, c: Cert) {
    Certified(log, c.terms) && (c.status != Active <==> SettledBy(log, c.terms.quoteId))
  }

  ghost predicate CertsSourced(cs: seq<Cert>, log: seq<Event>) {
    && (forall n :: 0 <= n < |cs| ==> CertFrom(log, cs[n]))
    && (forall c :: Certified(log, c) ==> exists n :: 0 <= n < |cs| && cs[n].terms == c)
    && (forall id :: SettledBy(log, id) ==> exists n :: 0 <= n < |cs| && cs[n].terms.quoteId == id)
  }

  ghost predicate PaymentFrom(log: seq<Event>, p: Payment) {
    Credited(log, p.terms) && (p.matched <==> Spent(log, p.terms.txSignature))
  }

  ghost predicate PaymentsSourced(ps: seq<Payment>, log: seq<Event>) {
    && (forall n :: 0 <= n < |ps| ==> PaymentFrom(log, ps[n]))
    && (forall p :: Credited(log, p) ==> exists n :: 0 <= n < |ps| && ps[n].terms == p)
    && (forall tx :: Spent(log, tx) ==> exists n :: 0 <= n < |ps| && ps[n].terms.txSignature == tx)
  }

  ghost predicate Sourced(s: State, log: seq<Event>) {
    && QuotesSourced(s.quotes, log) && CertsSourced(s.certs, log) && PaymentsSourced(s.payments, log)
    && s.paused == PausedAfter(log)
  }

  // ---- One more event ----

  lemma OneMore(log: seq<Event>, e: Event)
    ensures forall t :: Issued(log + [e], t) <==> Issued(log, t) || Issues(e, t)
    ensures forall id :: Activated(log + [e], id) <==> Activated(log, id) || Activates(e, id)
    ensures forall id :: SettledBy(log + [e], id) <==> SettledBy(log, id) || Settles(e, id)
    ensures forall p :: Credited(log + [e], p) <==> Credited(log, p) || Credits(e, p)
    ensures forall tx :: Spent(log + [e], tx) <==> Spent(log, tx) || Spends(e, tx)
    ensures forall c :: Certified(log + [e], c) <==> Certified(log, c) || (e.CertificateActivated? && e.cert.terms == c)
    ensures PausedAfter(log + [e]) == if e.PausedSet? then e.paused else PausedAfter(log)
  {
    var l := log + [e];
    assert l[|log|] == e && l[..|log|] == log;
    forall t ensures Issued(l, t) <==> Issued(log, t) || Issues(e, t) {
      if Issues(e, t) { assert Issues(l[|log|], t); }
      if i :| 0 <= i < |log| && Issues(log[i], t) { assert Issues(l[i], t); }
    }
    forall id ensures Activated(l, id) <==> Activated(log, id) || Activates(e, id) {
      if Activates(e, id) { assert Activates(l[|log|], id); }
      if i :| 0 <= i < |log| && Activates(log[i], id) { assert Activates(l[i], id); }
    }
    forall id ensures SettledBy(l, id) <==> SettledBy(log, id) || Settles(e, id) {
      if Settles(e, id) { assert Settles(l[|log|], id); }
      if i :| 0 <= i < |log| && Settles(log[i], id) { assert Settles(l[i], id); }
    }
    forall p ensures Credited(l, p) <==> Credited(log, p) || Credits(e, p) {
      if Credits(e, p) { assert Credits(l[|log|], p); }
      if i :| 0 <= i < |log| && Credits(log[i], p) { assert Credits(l[i], p); }
    }
    forall tx ensures Spent(l, tx) <==> Spent(log, tx) || Spends(e, tx) {
      if Spends(e, tx) { assert Spends(l[|log|], tx); }
      if i :| 0 <= i < |log| && Spends(log[i], tx) { assert Spends(l[i], tx); }
    }
    forall c ensures Certified(l, c) <==> Certified(log, c) || (e.CertificateActivated? && e.cert.terms == c) {
      if e.CertificateActivated? && e.cert.terms == c { assert l[|log|].cert.terms == c; }
      if i :| 0 <= i < |log| && log[i].CertificateActivated? && log[i].cert.terms == c { assert l[i].cert.terms == c; }
    }
  }

  // ---- The quotes ----

  lemma QuotesSame(qs: seq<Quote>, log: seq<Event>, e: Event)
    requires QuotesSourced(qs, log) && log[|log| - 1].ts <= e.ts && !e.QuoteIssued? && !e.CertificateActivated?
    ensures QuotesSourced(qs, log + [e])
  {
    OneMore(log, e);
    hide Issued, Activated;
    forall n | 0 <= n < |qs| ensures QuoteFrom(log + [e], qs[n]) {
      assert QuoteFrom(log, qs[n]);
    }
  }

  lemma QuoteAdded(qs: seq<Quote>, log: seq<Event>, e: Event, q: Quote)
    requires QuotesSourced(qs, log) && log[|log| - 1].ts <= e.ts && e.QuoteIssued? && e.quote == q && q.status == Open
    requires forall n :: 0 <= n < |qs| ==> qs[n].terms.quoteId != q.terms.quoteId
    ensures QuotesSourced(qs + [q], log + [e])
  {
    OneMore(log, e);
    hide Issued, Activated;
    var qs' := qs + [q];
    forall n | 0 <= n < |qs'| ensures QuoteFrom(log + [e], qs'[n]) {
      if n < |qs| {
        assert QuoteFrom(log, qs[n]);
      }
    }
    forall t | Issued(log + [e], t) ensures exists n :: 0 <= n < |qs'| && qs'[n].terms == t {
      if n :| 0 <= n < |qs| && qs[n].terms == t {
        assert qs'[n].terms == t;
      } else {
        assert qs'[|qs|].terms == t;
      }
    }
    forall id | Activated(log + [e], id) ensures exists n :: 0 <= n < |qs'| && qs'[n].terms.quoteId == id {
      var n :| 0 <= n < |qs| && qs[n].terms.quoteId == id;
      assert qs'[n].terms.quoteId == id;
    }
  }

  /** A quote is consumed by the activation of its id, or lapses once it is stale. */
  lemma QuoteClosed(qs: seq<Quote>, log: seq<Event>, e: Event, i: nat, status: QuoteStatus)
    requires QuotesKeyed(qs) && QuotesSourced(qs, log) && log[|log| - 1].ts <= e.ts && !e.QuoteIssued?
    requires i < |qs| && qs[i].status == Open
    requires if e.CertificateActivated? then e.cert.terms.quoteId == qs[i].terms.quoteId && status == Consumed
             else qs[i].terms.validUntil < e.ts && status == Lapsed
    ensures QuotesSourced(qs[i := qs[i].(status := status)], log + [e])
  {
    OneMore(log, e);
    hide Issued, Activated;
    var qs' := qs[i := qs[i].(status := status)];
    assert forall n :: 0 <= n < |qs| ==> qs'[n].terms == qs[n].terms;
    forall n | 0 <= n < |qs| ensures QuoteFrom(log + [e], qs'[n]) {
      assert QuoteFrom(log, qs[n]);
      assert n != i ==> qs[n].terms.quoteId != qs[i].terms.quoteId;
    }
    forall t | Issued(log + [e], t) ensures exists n :: 0 <= n < |qs'| && qs'[n].terms == t {
      var n :| 0 <= n < |qs| && qs[n].terms == t;
      assert qs'[n].terms == t;
    }
    forall id | Activated(log + [e], id) ensures exists n :: 0 <= n < |qs'| && qs'[n].terms.quoteId == id {
      if Activated(log, id) {
        var n :| 0 <= n < |qs| && qs[n].terms.quoteId == id;
        assert qs'[n].terms.quoteId == id;
      } else {
        assert qs'[i].terms.quoteId == id;
      }
    }
  }

  lemma QuotesStep(cfg: Config, s: State, now: int, log: seq<Event>, e: Event, s': State)
    requires Inv(cfg, s, now) && Transition(cfg, s, e, s') && QuotesSourced(s.quotes, log) && log[|log| - 1].ts <= e.ts
    ensures QuotesSourced(s'.quotes, log + [e])
  {
    hide QuotesSourced, Linked, MintsExclusive, QuoteRefusal, WithinBuyerLimit, Headroom, Payoff, FeeSplit;
    match e {
      case QuoteIssued(_, q) => QuoteAdded(s.quotes, log, e, q);
      case QuoteLapsed(_, id) => QuoteClosed(s.quotes, log, e, QuoteById(s.quotes, id), Lapsed);
      case CertificateActivated(_, c, tx) =>
        var i := QuoteByRef(s.quotes, s.payments[PaymentByTx(s.payments, tx)].terms.referenceKey);
        QuoteClosed(s.quotes, log, e, i, Consumed);
      case _ => QuotesSame(s.quotes, log, e);
    }
  }

  // ---- The certificates ----

  lemma CertsSame(cs: seq<Cert>, cs': seq<Cert>, log: seq<Event>, e: Event)
    requires CertsSourced(cs, log) && !e.CertificateActivated? && !e.CertificateSettled?
    requires |cs'| == |cs| && forall n :: 0 <= n < |cs| ==> cs'[n].terms == cs[n].terms && cs'[n].status == cs[n].status
    ensures CertsSourced(cs', log + [e])
  {
    OneMore(log, e);
    hide Certified, SettledBy;
    CertsPlaced(cs, cs', log);
    forall n | 0 <= n < |cs'| ensures CertFrom(log + [e], cs'[n]) {
      assert CertFrom(log, cs[n]);
    }
  }

  lemma CertsPlaced(cs: seq<Cert>, cs': seq<Cert>, log: seq<Event>)
    requires CertsSourced(cs, log) && |cs'| >= |cs| && forall n :: 0 <= n < |cs| ==> cs'[n].terms == cs[n].terms
    ensures forall c :: Certified(log, c) ==> exists n :: 0 <= n < |cs'| && cs'[n].terms == c
    ensures forall id :: SettledBy(log, id) ==> exists n :: 0 <= n < |cs'| && cs'[n].terms.quoteId == id
  {
    hide Certified, SettledBy;
    forall c | Certified(log, c) ensures exists n :: 0 <= n < |cs'| && cs'[n].terms == c {
      var n :| 0 <= n < |cs| && cs[n].terms == c;
      assert cs'[n].terms == c;
    }
    forall id | SettledBy(log, id) ensures exists n :: 0 <= n < |cs'| && cs'[n].terms.quoteId == id {
      var n :| 0 <= n < |cs| && cs[n].terms.quoteId == id;
      assert cs'[n].terms.quoteId == id;
    }
  }

  lemma CertAdded(cs: seq<Cert>, log: seq<Event>, e: Event, c: Cert)
    requires CertsSourced(cs, log) && e.CertificateActivated? && e.cert == c && c.status == Active
    requires forall n :: 0 <= n < |cs| ==> cs[n].terms.quoteId != c.terms.quoteId
    ensures CertsSourced(cs + [c], log + [e])
  {
    OneMore(log, e);
    hide Certified, SettledBy;
    var cs' := cs + [c];
    CertsPlaced(cs, cs', log);
    assert cs'[|cs|].terms == c.terms;
    forall n | 0 <= n < |cs'| ensures CertFrom(log + [e], cs'[n]) {
      if n < |cs| {
        assert CertFrom(log, cs[n]);
      }
    }
  }

  lemma CertClosed(cs: seq<Cert>, log: seq<Event>, e: Event, i: nat, c: Cert)
    requires CertsKeyed(cs) && CertsSourced(cs, log) && e.CertificateSettled? && i < |cs|
    requires cs[i].terms.quoteId == e.quoteId && c.terms == cs[i].terms && c.status != Active
    ensures CertsSourced(cs[i := c], log + [e])
  {
    OneMore(log, e);
    hide Certified, SettledBy;
    var cs' := cs[i := c];
    CertsPlaced(cs, cs', log);
    assert cs'[i].terms.quoteId == e.quoteId;
    forall n | 0 <= n < |cs'| ensures CertFrom(log + [e], cs'[n]) {
      assert CertFrom(log, cs[n]);
      assert n != i ==> cs[n].terms.quoteId != cs[i].terms.quoteId;
    }
  }

  lemma CertsStep(cfg: Config, s: State, now: int, log: seq<Event>, e: Event, s': State)
    requires Inv(cfg, s, now) && Transition(cfg, s, e, s') && CertsSourced(s.certs, log)
    ensures CertsSourced(s'.certs, log + [e])
  {
    hide CertsSourced, Linked, MintsExclusive, QuoteRefusal, WithinBuyerLimit, Headroom, Payoff, FeeSplit;
    match e {
      case CertificateActivated(_, c, _) => CertAdded(s.certs, log, e, c);
      case CertificateSettled(_, id, _, _, _, _, _) =>
        var i := CertById(s.certs, id);
        CertClosed(s.certs, log, e, i, s'.certs[i]);
      case _ => CertsSame(s.certs, s'.certs, log, e);
    }
  }

  // ---- The payments ----

  lemma PaymentsPlaced(ps: seq<Payment>, ps': seq<Payment>, log: seq<Event>)
    requires PaymentsSourced(ps, log) && |ps'| >= |ps| && forall n :: 0 <= n < |ps| ==> ps'[n].terms == ps[n].terms
    ensures forall p :: Credited(log, p) ==> exists n :: 0 <= n < |ps'| && ps'[n].terms == p
    ensures forall tx :: Spent(log, tx) ==> exists n :: 0 <= n < |ps'| && ps'[n].terms.txSignature == tx
  {
    hide Credited, Spent;
    forall p | Credited(log, p) ensures exists n :: 0 <= n < |ps'| && ps'[n].terms == p {
      var n :| 0 <= n < |ps| && ps[n].terms == p;
      assert ps'[n].terms == p;
    }
    forall tx | Spent(log, tx) ensures exists n :: 0 <= n < |ps'| && ps'[n].terms.txSignature == tx {
      var n :| 0 <= n < |ps| && ps[n].terms.txSignature == tx;
      assert ps'[n].terms.txSignature == tx;
    }
  }

  lemma PaymentAdded(ps: seq<Payment>, log: seq<Event>, e: Event, p: Payment)
    requires PaymentsSourced(ps, log) && e.PaymentObserved? && e.payment == p && !p.matched
    requires forall n :: 0 <= n < |ps| ==> ps[n].terms.txSignature != p.terms.txSignature
    ensures PaymentsSourced(ps + [p], log + [e])
  {
    OneMore(log, e);
    hide Credited, Spent;
    var ps' := ps + [p];
    PaymentsPlaced(ps, ps', log);
    assert ps'[|ps|].terms == p.terms;
    forall n | 0 <= n < |ps'| ensures PaymentFrom(log + [e], ps'[n]) {
      if n < |ps| {
        assert PaymentFrom(log, ps[n]);
      }
    }
  }

  lemma PaymentSpent(ps: seq<Payment>, log: seq<Event>, e: Event, i: nat)
    requires PaymentsKeyed(ps) && PaymentsSourced(ps, log) && i < |ps| && Spends(e, ps[i].terms.txSignature)
    ensures PaymentsSourced(ps[i := ps[i].(matched := true)], log + [e])
  {
    OneMore(log, e);
    hide Credited, Spent;
    var ps' := ps[i := ps[i].(matched := true)];
    PaymentsPlaced(ps, ps', log);
    assert ps'[i].terms.txSignature == ps[i].terms.txSignature;
    forall n | 0 <= n < |ps'| ensures PaymentFrom(log + [e], ps'[n]) {
      assert PaymentFrom(log, ps[n]);
      assert n != i ==> ps[n].terms.txSignature != ps[i].terms.txSignature;
    }
  }

  lemma PaymentsSame(ps: seq<Payment>, log: seq<Event>, e: Event)
    requires PaymentsSourced(ps, log) && !e.PaymentObserved? && !e.CertificateActivated? && !e.PaymentRefunded?
    ensures PaymentsSourced(ps, log + [e])
  {
    OneMore(log, e);
    hide Credited, Spent;
    forall n | 0 <= n < |ps| ensures PaymentFrom(log + [e], ps[n]) {
      assert PaymentFrom(log, ps[n]);
    }
  }

  lemma PaymentsStep(cfg: Config, s: State, now: int, log: seq<Event>, e: Event, s': State)
    requires Inv(cfg, s, now) && Transition(cfg, s, e, s') && PaymentsSourced(s.payments, log)
    ensures PaymentsSourced(s'.payments, log + [e])
  {
    hide PaymentsSourced, Linked, MintsExclusive, QuoteRefusal, WithinBuyerLimit, Headroom, Payoff, FeeSplit;
    match e {
      case PaymentObserved(_, p) => PaymentAdded(s.payments, log, e, p);
      case CertificateActivated(_, _, tx) => PaymentSpent(s.payments, log, e, PaymentByTx(s.payments, tx));
      case PaymentRefunded(_, tx, _, _) => PaymentSpent(s.payments, log, e, PaymentByTx(s.payments, tx));
      case _ => PaymentsSame(s.payments, log, e);
    }
  }

  // ---- Every run ----

  lemma PausedStep(cfg: Config, s: State, log: seq<Event>, e: Event, s': State)
    requires Transition(cfg, s, e, s') && s.paused == PausedAfter(log)
    ensures s'.paused == PausedAfter(log + [e])
  {
    hide Payoff, FeeSplit, Issued, Activated, SettledBy, Credited, Spent, Certified;
    OneMore(log, e);
  }

  lemma SourcedStep(cfg: Config, s: State, now: int, log: seq<Event>, e: Event, s': State)
    requires Inv(cfg, s, now) && Transition(cfg, s, e, s') && Sourced(s, log) && |log| > 0 && log[|log| - 1].ts <= e.ts
    ensures Sourced(s', log + [e])
  {
    hide QuotesSourced, CertsSourced, PaymentsSourced, Inv, Transition, PausedAfter;
    QuotesStep(cfg, s, now, log, e, s');
    CertsStep(cfg, s, now, log, e, s');
    PaymentsStep(cfg, s, now, log, e, s');
    PausedStep(cfg, s, log, e, s');
  }

  lemma OpeningSourced(e: Event)
    requires e.LedgerOpened?
    ensures Sourced(OpenedState(e.initialReserves), [e])
  {
    OneMore([], e);
    assert [] + [e] == [e];
  }

  /** In every state of every run the records are those the log so far tells of, in the condition it tells. */
  lemma {:induction false} RunIsSourced(cfg: Config, states: seq<State>, log: seq<Event>)
    requires cfg.Sane() && History(cfg, states, log)
    ensures Sourced(states[|log| - 1], log)
  {
    hide Sourced, Inv, Transition;
    var n := |log| - 1;
    if n == 0 {
      OpeningSourced(log[0]);
      assert log == [log[0]];
    } else {
      HistoryPrefix(cfg, states, log, n);
      RunIsSourced(cfg, states[..n], log[..n]);
      InvariantOfRun(cfg, states, log);
      SourcedStep(cfg, states[n - 1], log[n - 1].ts, log[..n], log[n], states[n]);
      assert log[..n] + [log[n]] == log;
    }
  }
}
