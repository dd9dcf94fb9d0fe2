/** Runs at actual inputs: settlements that a failing port strands, and refunds beyond the budget. */
module HedgeScenarios {
  import opened Outcomes
  import opened HedgeTypes
  import opened HedgeInvariants
  import opened HedgeTransitions
  import opened HedgeReplay
  import opened HedgeRunner
  import opened HedgeScans
  import opened HedgeScheduler
  import opened HedgePayouts
  import opened HedgeWalk
  import opened Sums

  /** No fees, no limits, a tenor of ten seconds, and positions that are worth nothing. */
  const CONFIG: Config :=
    Config(10_000, 0, 0.0, 10, 100, 0, 0, 0, 0, (p: Position, price: real) => 0.0)

  const RUNNER: RunnerConfig := RunnerConfig(100, 1, 100, false)

  lemma SumOfTwo<T(!new)>(x: T, y: T, w: T -> int)
    ensures Sum([x], w) == w(x) && Sum([x, y], w) == w(x) + w(y)
  {
    assert [x][..0] == [] && [x, y][..1] == [x];
  }

  // ---- Two certificates, bought one after the other at time zero ----

  /** Everything about one purchase goes by one key. */
  function Terms(k: Key): QuoteTerms {
    QuoteTerms(k, k, Position(k, k, 0, 0, 0, 0, 0, 0.0), 0.0, 0.0, 0, 1, 2, 3, 4, 0, 0, 100)
  }

  function Bought(k: Key): Cert { NewCert(CONFIG, 0, Terms(k)) }
  function Paid(k: Key, matched: bool): Payment { Payment(PaymentTerms(k, k, k, 4, 0), matched) }

  function Quoting(ks: seq<Key>): State {
    OpenedState(10).(quotes := seq(|ks|, i requires 0 <= i < |ks| => Quote(Terms(ks[i]), Open)))
  }

  /** The two payments are in and their certificates active. */
  function TwoActive(a: Key, b: Key): State {
    State(false, 10, 18, 8, 0, 0, [Quote(Terms(a), Consumed), Quote(Terms(b), Consumed)],
          [Paid(a, true), Paid(b, true)], [Bought(a), Bought(b)])
  }

  function TwoBought(a: Key, b: Key): seq<Event> {
    [LedgerOpened(0, 10), QuoteIssued(0, Quote(Terms(a), Open)), QuoteIssued(0, Quote(Terms(b), Open)),
     PaymentObserved(0, Paid(a, false)), CertificateActivated(0, Bought(a), a),
     PaymentObserved(0, Paid(b, false)), CertificateActivated(0, Bought(b), b)]
  }

  function OneActive(a: Key, b: Key): State {
    State(false, 10, 14, 4, 0, 0, [Quote(Terms(a), Consumed), Quote(Terms(b), Open)], [Paid(a, true)], [Bought(a)])
  }

  function StatesOf(a: Key, b: Key): seq<State> {
    [Quoting([]), Quoting([a]), Quoting([a, b]), WithPayment(Quoting([a, b]), Paid(a, false)), OneActive(a, b),
     WithPayment(OneActive(a, b), Paid(b, false)), TwoActive(a, b)]
  }

  lemma NotRefused(ks: seq<Key>, k: Key)
    requires k !in ks
    ensures QuoteRefusal(CONFIG, Quoting(ks), 0, Terms(k).position, 0, Some(PricedOf(Terms(k)))) == None
  {
    hide LiveQuotesOf, Sum, Terms;
    var s, p := Quoting(ks), Terms(k).position;
    assert p.mint == k && Terms(k).capDown == 2 by { TermsOf(k); }
    assert !HasLiveQuote(s.quotes, 0, p.mint) by {
      forall i | 0 <= i < |s.quotes| ensures !LiveFor(s.quotes[i], 0, p.mint) {
        TermsOf(ks[i]);
      }
    }
    assert !HasActiveCert(s.certs, p.mint);
    assert NetReserves(s) == 10 && ActiveCapDown(s) == 0 by {
      SumZero(s.payments, FloatOf);
      SumZero(s.certs, CollateralOf);
      SumZero(s.certs, CapDownOf);
    }
  }

  lemma TermsOf(k: Key)
    ensures Terms(k).quoteId == k && Terms(k).referenceKey == k && Terms(k).position.mint == k && Terms(k).capDown == 2
    ensures Quote(Terms(k), Open) == NewQuote(CONFIG, 0, Terms(k).position, PricedOf(Terms(k)), k, k)
  {
  }

  /** With nothing sold yet, a quote on a position without one is issued. */
  lemma Quotable(ks: seq<Key>, k: Key)
    requires k !in ks
    ensures Transition(CONFIG, Quoting(ks), QuoteIssued(0, Quote(Terms(k), Open)), Quoting(ks + [k]))
  {
    hide QuoteRefusal, Terms, NewQuote;
    var s, q := Quoting(ks), Quote(Terms(k), Open);
    NotRefused(ks, k);
    TermsOf(k);
    forall i | 0 <= i < |s.quotes| ensures s.quotes[i].terms.quoteId != k && s.quotes[i].terms.referenceKey != k {
      TermsOf(ks[i]);
    }
    assert Quoting(ks + [k]).quotes == s.quotes + [q];
  }

  lemma FirstActivated(a: Key, b: Key)
    requires a != b
    ensures var s := WithPayment(Quoting([a, b]), Paid(a, false));
            && Transition(CONFIG, Quoting([a, b]), PaymentObserved(0, Paid(a, false)), s)
            && Transition(CONFIG, s, CertificateActivated(0, Bought(a), a), OneActive(a, b))
  {
    var s := WithPayment(Quoting([a, b]), Paid(a, false));
    assert s.quotes == [Quote(Terms(a), Open), Quote(Terms(b), Open)] && s.payments == [Paid(a, false)];
    SumOfTwo(Paid(a, false), Paid(a, false), FloatOf);
    assert PaymentByTx(s.payments, a) == 0 && QuoteByRef(s.quotes, a) == 0;
    assert Activates(CONFIG, s, 0, s.payments[0].terms);
    assert s.payments[0 := Paid(a, true)] == [Paid(a, true)];
    assert s.quotes[0 := Quote(Terms(a), Consumed)] == [Quote(Terms(a), Consumed), Quote(Terms(b), Open)];
  }

  lemma SecondActivated(a: Key, b: Key)
    requires a != b
    ensures var s := WithPayment(OneActive(a, b), Paid(b, false));
            && Transition(CONFIG, OneActive(a, b), PaymentObserved(0, Paid(b, false)), s)
            && Transition(CONFIG, s, CertificateActivated(0, Bought(b), b), TwoActive(a, b))
  {
    var s := WithPayment(OneActive(a, b), Paid(b, false));
    assert s.payments == [Paid(a, true), Paid(b, false)];
    SumOfTwo(Paid(a, true), Paid(b, false), FloatOf);
    SumOfTwo(Bought(a), Bought(a), CollateralOf);
    SumOfTwo(Bought(a), Bought(a), CapDownOf);
    assert PaymentByTx(s.payments, b) == 1 && QuoteByRef(s.quotes, b) == 1;
    assert Activates(CONFIG, s, 0, s.payments[1].terms);
    assert s.payments[1 := Paid(b, true)] == [Paid(a, true), Paid(b, true)];
    assert s.quotes[1 := Quote(Terms(b), Consumed)] == [Quote(Terms(a), Consumed), Quote(Terms(b), Consumed)];
  }

  lemma TwoBoughtIsRun(a: Key, b: Key)
    requires a != b
    ensures History(CONFIG, StatesOf(a, b), TwoBought(a, b))
  {
    hide Transition;
    Quotable([], a);
    Quotable([a], b);
    assert [] + [a] == [a] && [a] + [b] == [a, b];
    FirstActivated(a, b);
    SecondActivated(a, b);
    assert Quoting([]) == OpenedState(10) by {
      assert Quoting([]).quotes == [];
    }
    var states, log := StatesOf(a, b), TwoBought(a, b);
    forall k | 0 < k < |log| ensures Transition(CONFIG, states[k - 1], log[k], states[k]) {
      if k == 1 || k == 2 {
      } else if k == 3 || k == 4 {
      } else {
      }
    }
  }

  /** Every port answers, except that no price can be read for one of the certificates. */
  function NoPriceFor(b: Key): Ports {
    Ports(Answered(Scan([], None)), (k: Key) => None,
          (c: Cert) => if c.terms.quoteId == b then Threw else Answered(Reading(0.0, 0, 0.0, 0)),
          (c: Cert) => Answered(0), Answered(100), (p: Payout) => Some(p.reference))
  }

  /**
   * Two certificates fall due at time ten. The price of the second cannot be read; by then the first is
   * settled in the log, the cycle pays nothing, and only the second is still due.
   */
  lemma StrandedSettlement(a: Key, b: Key)
    requires a != b
    ensures History(CONFIG, StatesOf(a, b), TwoBought(a, b))
    ensures var s, ports := TwoActive(a, b), NoPriceFor(b);
      && Due(s.certs, 10) == [Bought(a), Bought(b)] && AllQuoted(s.quotes, Due(s.certs, 10))
      && StopsAt(CONFIG, s.quotes, ports, RUNNER, 100, Due(s.certs, 10), 1)
      && var w := WalkAll(CONFIG, s.quotes, ports, RUNNER, 100, Due(s.certs, 10));
      && w.stopped == Some(PortThrew) && w.paid == [Payout(ForSettlement, a, a, 3)]
    ensures var s, e, s' := TwoActive(a, b), FirstSettled(a), AfterFirst(a, b);
      && Transition(CONFIG, s, e, s') && Owes(e, Payout(ForSettlement, a, a, 3))
      && forall now :: now >= 10 ==> Due(s'.certs, now) == [Bought(b)]
  {
    TwoBoughtIsRun(a, b);
    BothDue(a, b);
    WalkStopsAtSecond(a, b);
    FirstSettles(a, b);
    forall now | now >= 10 ensures Due(AfterFirst(a, b).certs, now) == [Bought(b)] {
      DueOfTwo(AfterFirst(a, b).certs[0], Bought(b), now);
    }
  }

  /** The cycle that meets those two certificates and those ports fails, and drops the first settlement for good. */
  lemma StrandedCycle(a: Key, b: Key, c: Cycle)
    requires a != b && IsCycle(CONFIG, RUNNER, c)
    requires c.ports == NoPriceFor(b) && c.course.s1 == TwoActive(a, b) && c.course.scanned == 10
    ensures c.r == Err(PortThrew) && c.calls == [] && Dropped(c) == [Payout(ForSettlement, a, a, 3)]
  {
    hide StopsAt, Transition, CycleOutcome, Replay;
    StrandedSettlement(a, b);
    assert Begins(c.ports);
  }

  function FirstSettled(a: Key): Event {
    CertificateSettled(10, a, Reading(0.0, 0, 0.0, 0), 0, 0, 3, Expired)
  }

  function AfterFirst(a: Key, b: Key): State {
    WithSettlement(TwoActive(a, b), 0, Settlement(0.0, 0, 0, 3, 10), Expired)
  }

  lemma DueOfTwo(c: Cert, d: Cert, now: int)
    ensures Due([c, d], now) == (if IsDue(c, now) then [c] else []) + (if IsDue(d, now) then [d] else [])
  {
    assert Due([c], now) == if IsDue(c, now) then [c] else [] by {
      assert [c][..0] == [] && Due([], now) == [];
    }
    assert [c, d][..1] == [c];
  }

  lemma BothDue(a: Key, b: Key)
    requires a != b
    ensures Due(TwoActive(a, b).certs, 10) == [Bought(a), Bought(b)]
    ensures AllQuoted(TwoActive(a, b).quotes, [Bought(a), Bought(b)])
    ensures QuoteById(TwoActive(a, b).quotes, a) == 0
  {
    DueOfTwo(Bought(a), Bought(b), 10);
    assert TwoActive(a, b).quotes[0].terms.quoteId == a && TwoActive(a, b).quotes[1].terms.quoteId == b;
  }

  /** With nothing moved and no fees a settlement returns the collateral. */
  lemma ReturnsCollateral(k: Key, x: real)
    ensures Payoff(CONFIG, Terms(k), Bought(k).terms, x) == 0 && FeeSplit(CONFIG, 0) == 0
    ensures SettlementAmount(0, 0, 3) == 3
  {
  }

  lemma WalkStopsAtSecond(a: Key, b: Key)
    requires a != b
    ensures var qs, ports, due := TwoActive(a, b).quotes, NoPriceFor(b), [Bought(a), Bought(b)];
      && AllQuoted(qs, due) && StopsAt(CONFIG, qs, ports, RUNNER, 100, due, 1)
      && WalkAll(CONFIG, qs, ports, RUNNER, 100, due)
         == Walk(97, [Payout(ForSettlement, a, a, 3)], [], None, Some(PortThrew))
  {
    var qs, ports, due := TwoActive(a, b).quotes, NoPriceFor(b), [Bought(a), Bought(b)];
    BothDue(a, b);
    ReturnsCollateral(a, 0.0);
    assert due[..0] == [] && due[..2] == due;
    WalkNext(CONFIG, qs, ports, RUNNER, 100, due, 0);
    WalkNext(CONFIG, qs, ports, RUNNER, 100, due, 1);
  }

  lemma FirstSettles(a: Key, b: Key)
    requires a != b
    ensures Transition(CONFIG, TwoActive(a, b), FirstSettled(a), AfterFirst(a, b))
    ensures AfterFirst(a, b).certs
         == [Bought(a).(status := Expired, settlement := Some(Settlement(0.0, 0, 0, 3, 10))), Bought(b)]
  {
    BothDue(a, b);
    ReturnsCollateral(a, 0.0);
    assert CertById(TwoActive(a, b).certs, a) == 0;
  }

  // ---- One payment nobody asked for ----

  function Stray(k: Key): Payment { Payment(PaymentTerms(k, k, k, 100, 0), false) }

  /**
   * A payment of 100 for a reference the ledger does not know, and a hot wallet that reads empty: there is
   * nothing to settle, and the sweep takes 100 where the budget is nothing.
   */
  lemma RefundsBeyondBudget(k: Key, now: int)
    ensures var s := WithPayment(OpenedState(10), Stray(k));
      && History(CONFIG, [OpenedState(10), s], [LedgerOpened(0, 10), PaymentObserved(0, Stray(k))])
      && Due(s.certs, now) == [] && Min(0, RUNNER.floatCap) == 0
      && SweepTotal(s, RUNNER.minRefund, now) == 100 > 0
  {
    var s := WithPayment(OpenedState(10), Stray(k));
    assert s.payments == [Stray(k)];
    SumOfTwo(Stray(k), Stray(k), SweepOf(s, RUNNER.minRefund, now));
  }

  /** The cycle that meets that payment and completes owes 100 on a budget of nothing. */
  lemma OverspentCycle(k: Key, c: Cycle)
    requires IsCycle(CONFIG, RUNNER, c) && c.r.Ok? && c.course.s1 == WithPayment(OpenedState(10), Stray(k))
    requires c.ports.balance == Answered(0)
    ensures Budget(c.ports, RUNNER) == 0
    ensures Owed(Dues(c.r.value.settled)) == 0 && Owed(Dues(c.r.value.refunded)) == 100
  {
    hide CycleOutcome, Replay, SweepTotal;
    RefundsBeyondBudget(k, c.course.scanned);
    RefundsBeyondBudget(k, c.ended);
    SettlementsAndRefunds(CONFIG, RUNNER, c);
  }
}
