/** fromEvents: the fold over a persisted log, and its agreement with the live ledger. */
module HedgeReplay {
  import opened Outcomes
  import opened HedgeTypes
  import opened HedgeInvariants
  import opened HedgeTransitions
  import opened HedgeSafety
  import opened HedgeRuns

  // ---- Map.set: in place when the key is there, at the end otherwise ----

  function PutQuote(qs: seq<Quote>, q: Quote): seq<Quote> {
    var i := QuoteById(qs, q.terms.quoteId);
    if i < |qs| then qs[i := q] else qs + [q]
  }

  function PutPayment(ps: seq<Payment>, p: Payment): seq<Payment> {
    var i := PaymentByTx(ps, p.terms.txSignature);
    if i < |ps| then ps[i := p] else ps + [p]
  }

  function PutCert(cs: seq<Cert>, c: Cert): seq<Cert> {
    var i := CertById(cs, c.terms.quoteId);
    if i < |cs| then cs[i := c] else cs + [c]
  }

  /** Applies one event as a fact, with no business guard. */
  function ApplyEvent(s: State, e: Event): Result<State, LedgerError> {
    match e
    case LedgerOpened(_, _) => Err(DuplicateOpened)
    case QuoteIssued(_, q) => Ok(s.(quotes := PutQuote(s.quotes, q)))
    case QuoteLapsed(_, id) =>
      var i := QuoteById(s.quotes, id);
      if i == |s.quotes| then Err(UnknownQuote) else Ok(WithLapsed(s, i))
    case PaymentObserved(_, p) =>
      Ok(s.(payments := PutPayment(s.payments, p), treasury := s.treasury + p.terms.amount,
            totalIn := s.totalIn + p.terms.amount))
    case CertificateActivated(_, c, tx) =>
      var pi := PaymentByTx(s.payments, tx);
      var qi := QuoteById(s.quotes, c.terms.quoteId);
      if pi == |s.payments| || qi == |s.quotes| then Err(DanglingActivation)
      else Ok(s.(certs := PutCert(s.certs, c),
                 payments := s.payments[pi := s.payments[pi].(matched := true)],
                 quotes := s.quotes[qi := s.quotes[qi].(status := Consumed)]))
    case FeeCheckpointRecorded(_, id, cp) =>
      var i := CertById(s.certs, id);
      if i < |s.certs| && s.certs[i].feeCheckpoint == None then Ok(WithCheckpoint(s, i, cp)) else Ok(s)
    case PaymentRefunded(_, tx, amount, _) =>
      var i := PaymentByTx(s.payments, tx);
      if i == |s.payments| then Err(UnknownPayment)
      else Ok(s.(payments := s.payments[i := s.payments[i].(matched := true)],
                 treasury := s.treasury - amount, totalRefunded := s.totalRefunded + amount))
    case CertificateSettled(ts, id, reading, payoff, feeSplit, amount, finalStatus) =>
      var i := CertById(s.certs, id);
      if i == |s.certs| then Err(UnknownCertificate)
      else Ok(WithSettlement(s, i, Settlement(reading.price, payoff, feeSplit, amount, ts), finalStatus))
    case PausedSet(_, b) => Ok(s.(paused := b))
  }

  /** An event is refused exactly when it opens the ledger anew or names a record that is not there. */
  lemma RefusedFacts(s: State, e: Event)
    ensures ApplyEvent(s, e).Err? <==>
      match e
      case LedgerOpened(_, _) => true
      case QuoteLapsed(_, id) => forall n :: 0 <= n < |s.quotes| ==> s.quotes[n].terms.quoteId != id
      case CertificateActivated(_, c, tx) =>
        || (forall n :: 0 <= n < |s.payments| ==> s.payments[n].terms.txSignature != tx)
        || (forall n :: 0 <= n < |s.quotes| ==> s.quotes[n].terms.quoteId != c.terms.quoteId)
      case PaymentRefunded(_, tx, _, _) => forall n :: 0 <= n < |s.payments| ==> s.payments[n].terms.txSignature != tx
      case CertificateSettled(_, id, _, _, _, _, _) => forall n :: 0 <= n < |s.certs| ==> s.certs[n].terms.quoteId != id
      case _ => false
  {
  }

  /** One event, then the runtime checks. */
  function ReplayEvent(s: State, e: Event): Result<State, LedgerError> {
    match ApplyEvent(s, e)
    case Err(x) => Err(x)
    case Ok(s') => if Checks(s') then Ok(s') else Err(InvariantViolation)
  }

  function Replay(log: seq<Event>): Result<State, LedgerError> {
    if |log| == 0 || !log[0].LedgerOpened? then Err(BadLogStart)
    else if log[0].initialReserves < 0 then Err(InvalidAmount)
    else if |log| == 1 then Ok(OpenedState(log[0].initialReserves))
    else
      match Replay(log[..|log| - 1])
      case Err(x) => Err(x)
      case Ok(s) => ReplayEvent(s, log[|log| - 1])
  }

  // ---- Agreement ----

  /** What a commit did to the live records is what applying its event does. */
  lemma ReplayFollowsTransition(cfg: Config, s: State, now: int, e: Event, s': State)
    requires Inv(cfg, s, now) && Transition(cfg, s, e, s')
    ensures ApplyEvent(s, e) == Ok(s')
  {
    if e.CertificateActivated? {
      var pi := PaymentByTx(s.payments, e.txSignature);
      var qi := QuoteByRef(s.quotes, s.payments[pi].terms.referenceKey);
      assert QuoteById(s.quotes, s.quotes[qi].terms.quoteId) == qi;
    }
  }

  /**
   * Replaying the log of any run never throws, and replaying its first n events gives the very state
   * the live ledger had right after the n-th, for every n.
   */
  lemma {:induction false} ReplayIsExact(cfg: Config, states: seq<State>, log: seq<Event>, n: nat)
    requires cfg.Sane() && History(cfg, states, log) && 0 < n <= |log|
    ensures Replay(log[..n]) == Ok(states[n - 1])
  {
    hide Transition, Checks, Inv, ReplayEvent;
    var l := log[..n];
    if n > 1 {
      ReplayIsExact(cfg, states, log, n - 1);
      assert l[..n - 1] == log[..n - 1];
      InvariantOfRun(cfg, states, log);
      OneEventFurther(cfg, states[n - 2], log[n - 2].ts, log[n - 1], states[n - 1]);
    }
  }

  lemma OneEventFurther(cfg: Config, s: State, before: int, e: Event, s': State)
    requires cfg.Sane() && Inv(cfg, s, before) && before <= e.ts && Transition(cfg, s, e, s')
    ensures ReplayEvent(s, e) == Ok(s')
  {
    hide Transition, Checks, Inv, ApplyEvent;
    ReplayFollowsTransition(cfg, s, before, e, s');
    TransitionKeeps(cfg, s, before, e, s');
    InvImpliesChecks(cfg, s', e.ts);
  }

  lemma ReplayWholeLog(cfg: Config, states: seq<State>, log: seq<Event>)
    requires cfg.Sane() && History(cfg, states, log)
    ensures Replay(log) == Ok(states[|log| - 1])
  {
    ReplayIsExact(cfg, states, log, |log|);
    assert log[..|log|] == log;
  }

  lemma OpenedStateChecks(reserves: nat)
    ensures Checks(OpenedState(reserves))
  {
  }

  /** Any log that loads, genuine or not, satisfies I1 to I4 after each of its events. */
  lemma {:induction false} LoadedLogPassesChecks(log: seq<Event>, n: nat)
    requires Replay(log).Ok? && 0 < n <= |log|
    ensures Replay(log[..n]).Ok? && Checks(Replay(log[..n]).value)
  {
    if n == |log| {
      assert log[..n] == log;
      if n == 1 {
        OpenedStateChecks(log[0].initialReserves);
      }
    } else {
      var l := log[..|log| - 1];
      LoadedLogPassesChecks(l, n);
      assert l[..n] == log[..n];
    }
  }

  /** Once replay has failed, no further event makes it load. */
  lemma {:induction false} ReplayFailureSticks(log: seq<Event>, n: nat)
    requires 0 < n <= |log| && Replay(log[..n]).Err?
    ensures Replay(log) == Replay(log[..n])
  {
    if n == |log| {
      assert log[..n] == log;
    } else {
      var l := log[..|log| - 1];
      assert l[..n] == log[..n];
      ReplayFailureSticks(l, n);
    }
  }
}
