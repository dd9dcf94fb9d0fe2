/**
 * What one cycle will do, as functions of the port answers: the walk over the due certificates, where
 * it stops, what a stop strands, and what the refund sweep takes.
 */
module HedgeWalk {
  import opened Outcomes
  import opened HedgeTypes
  import opened HedgeInvariants
  import opened HedgeTransitions
  import opened HedgeRuns
  import opened HedgePayouts
  import opened Sums

  datatype Answer<+T> = Answered(value: T) | Threw
  datatype Scan = Scan(transfers: seq<Transfer>, cursor: Option<Key>)

  /** checkpointOf answers None for a null or a throw; pay answers None when the payout fails. */
  datatype Ports = Ports(
    scan: Answer<Scan>, checkpointOf: Key -> Option<FeeCheckpoint>, priceOf: Cert -> Answer<Reading>,
    feesOf: Cert -> Answer<int>, balance: Answer<int>, pay: Payout -> Option<Key>)

  datatype RunnerConfig = RunnerConfig(floatCap: int, minRefund: int, maxDivergenceBps: int, dryRun: bool)

  datatype Abort = PortThrew | BadTransfer | BadFees

  // ---- The walk ----

  function Worst(c: Cert): int { c.terms.capDown + c.terms.capUp }

  predicate Quoted(qs: seq<Quote>, c: Cert) { QuoteById(qs, c.terms.quoteId) < |qs| }

  predicate AllQuoted(qs: seq<Quote>, cs: seq<Cert>) {
    forall k :: 0 <= k < |cs| ==> Quoted(qs, cs[k])
  }

  /** What settling a certificate owes, whatever was settled before it. */
  function SettlementPayout(cfg: Config, qs: seq<Quote>, c: Cert, reading: Reading, fees: int): Payout
    requires Quoted(qs, c)
  {
    var payoff := Payoff(cfg, qs[QuoteById(qs, c.terms.quoteId)].terms, c.terms, reading.price);
    Payout(ForSettlement, c.terms.quoteId, c.terms.buyer, SettlementAmount(payoff, FeeSplit(cfg, fees), c.terms.capUp))
  }

  datatype Walk = Walk(
    left: int, paid: seq<Payout>, deferred: seq<Key>, shortfall: Option<int>, stopped: Option<Abort>)

  predicate Diverges(ports: Ports, rcfg: RunnerConfig, c: Cert) {
    ports.priceOf(c).Answered? && ports.priceOf(c).value.divergenceBps > rcfg.maxDivergenceBps
  }

  /** One due certificate: stop, defer, go short, or settle. */
  function Visit(cfg: Config, qs: seq<Quote>, ports: Ports, rcfg: RunnerConfig, w: Walk, c: Cert): Walk
    requires Quoted(qs, c)
  {
    var price, fees := ports.priceOf(c), ports.feesOf(c);
    if w.stopped.Some? then w
    else if price.Threw? then w.(stopped := Some(PortThrew))
    else if Diverges(ports, rcfg, c) then w.(deferred := w.deferred + [c.terms.quoteId])
    else if fees.Threw? then w.(stopped := Some(PortThrew))
    else if Worst(c) > w.left then
      w.(shortfall := Some((if w.shortfall.Some? then w.shortfall.value else 0) + Worst(c) - w.left))
    else if fees.value < 0 then w.(stopped := Some(BadFees))
    else
      var p := SettlementPayout(cfg, qs, c, price.value, fees.value);
      w.(left := w.left - p.amount, paid := w.paid + [p])
  }

  function WalkAll(cfg: Config, qs: seq<Quote>, ports: Ports, rcfg: RunnerConfig, budget: int, due: seq<Cert>): Walk
    requires AllQuoted(qs, due)
  {
    if due == [] then Walk(budget, [], [], None, None)
    else
      var n := |due| - 1;
      Visit(cfg, qs, ports, rcfg, WalkAll(cfg, qs, ports, rcfg, budget, due[..n]), due[n])
  }

  lemma WalkNext(cfg: Config, qs: seq<Quote>, ports: Ports, rcfg: RunnerConfig, budget: int, due: seq<Cert>, i: nat)
    requires AllQuoted(qs, due) && i < |due|
    ensures WalkAll(cfg, qs, ports, rcfg, budget, due[..i + 1])
         == Visit(cfg, qs, ports, rcfg, WalkAll(cfg, qs, ports, rcfg, budget, due[..i]), due[i])
  {
    assert due[..i + 1][..i] == due[..i];
  }

  /** A settlement costs nothing below zero and at most its worst case. */
  lemma PayoutBounded(cfg: Config, qs: seq<Quote>, c: Cert, reading: Reading, fees: nat)
    requires cfg.Sane() && Quoted(qs, c)
    ensures 0 <= SettlementPayout(cfg, qs, c, reading, fees).amount <= Worst(c)
  {
    PayoffWithinCaps(cfg, qs[QuoteById(qs, c.terms.quoteId)].terms, c.terms, reading.price);
    FeeSplitNonNegative(cfg, fees);
  }

  /** The settlements never take more than the budget; none is made from a negative one. */
  lemma {:induction false} WalkWithinBudget(cfg: Config, qs: seq<Quote>, ports: Ports, rcfg: RunnerConfig, budget: int,
                                            due: seq<Cert>)
    requires cfg.Sane() && AllQuoted(qs, due)
    ensures var w := WalkAll(cfg, qs, ports, rcfg, budget, due);
            && Owed(w.paid) == budget - w.left
            && (w.left >= 0 || w.paid == [])
            && Owed(w.paid) <= Max(0, budget)
            && forall k :: 0 <= k < |w.paid| ==> w.paid[k].kind == ForSettlement
  {
    hide SettlementPayout;
    if due != [] {
      var n := |due| - 1;
      WalkWithinBudget(cfg, qs, ports, rcfg, budget, due[..n]);
      var w, c := WalkAll(cfg, qs, ports, rcfg, budget, due[..n]), due[n];
      if ports.priceOf(c).Answered? && ports.feesOf(c).Answered? && ports.feesOf(c).value >= 0 {
        var p := SettlementPayout(cfg, qs, c, ports.priceOf(c).value, ports.feesOf(c).value);
        PayoutBounded(cfg, qs, c, ports.priceOf(c).value, ports.feesOf(c).value);
        SumAppend(w.paid, p, AmountDue);
        KindOfSettlement(cfg, qs, c, ports.priceOf(c).value, ports.feesOf(c).value);
      }
    }
  }

  lemma KindOfSettlement(cfg: Config, qs: seq<Quote>, c: Cert, reading: Reading, fees: int)
    requires Quoted(qs, c)
    ensures var p := SettlementPayout(cfg, qs, c, reading, fees);
            p.kind == ForSettlement && p.reference == c.terms.quoteId && p.to == c.terms.buyer
  {
  }

  // ---- What an unstopped walk did with each certificate ----

  function DeferredIn(ports: Ports, rcfg: RunnerConfig, due: seq<Cert>): seq<Key> {
    if due == [] then []
    else
      var n := |due| - 1;
      DeferredIn(ports, rcfg, due[..n]) + (if Diverges(ports, rcfg, due[n]) then [due[n].terms.quoteId] else [])
  }

  /** Deferred for divergence, or paid, or left for lack of float. */
  ghost predicate Handled(ports: Ports, rcfg: RunnerConfig, w: Walk, c: Cert) {
    && ports.priceOf(c).Answered?
    && (if Diverges(ports, rcfg, c) then c.terms.quoteId in w.deferred
        else w.shortfall.Some? || exists k :: 0 <= k < |w.paid| && w.paid[k].reference == c.terms.quoteId)
  }

  /** How many a completed walk deferred and settled, and whether it went short. */
  lemma {:induction false} WalkCounts(cfg: Config, qs: seq<Quote>, ports: Ports, rcfg: RunnerConfig, budget: int,
                                      due: seq<Cert>)
    requires AllQuoted(qs, due) && WalkAll(cfg, qs, ports, rcfg, budget, due).stopped == None
    ensures var w := WalkAll(cfg, qs, ports, rcfg, budget, due);
            && w.deferred == DeferredIn(ports, rcfg, due)
            && |w.paid| + |w.deferred| <= |due|
            && (w.shortfall == None <==> |w.paid| + |w.deferred| == |due|)
            && (w.shortfall.Some? ==> w.shortfall.value > 0)
  {
    hide SettlementPayout;
    if due != [] {
      WalkCounts(cfg, qs, ports, rcfg, budget, due[..|due| - 1]);
    }
  }

  /** A completed walk defers exactly the divergent certificates, and goes short exactly when it settles fewer than the rest. */
  lemma {:induction false} WalkHandles(cfg: Config, qs: seq<Quote>, ports: Ports, rcfg: RunnerConfig, budget: int,
                                       due: seq<Cert>)
    requires AllQuoted(qs, due) && WalkAll(cfg, qs, ports, rcfg, budget, due).stopped == None
    ensures var w := WalkAll(cfg, qs, ports, rcfg, budget, due);
            && (forall k :: 0 <= k < |due| ==> Handled(ports, rcfg, w, due[k]))
            && w.deferred == DeferredIn(ports, rcfg, due)
            && |w.paid| + |w.deferred| <= |due|
            && (w.shortfall == None <==> |w.paid| + |w.deferred| == |due|)
            && (w.shortfall.Some? ==> w.shortfall.value > 0)
  {
    WalkCounts(cfg, qs, ports, rcfg, budget, due);
    hide Visit, Handled, DeferredIn;
    if due != [] {
      var n := |due| - 1;
      var front := WalkAll(cfg, qs, ports, rcfg, budget, due[..n]);
      var w := WalkAll(cfg, qs, ports, rcfg, budget, due);
      VisitStops(cfg, qs, ports, rcfg, front, due[n]);
      WalkHandles(cfg, qs, ports, rcfg, budget, due[..n]);
      forall k | 0 <= k < |due| ensures Handled(ports, rcfg, w, due[k]) {
        if k < n {
          assert Handled(ports, rcfg, front, due[..n][k]);
          HandledStays(cfg, qs, ports, rcfg, front, due[n], due[k]);
        } else {
          HandledNow(cfg, qs, ports, rcfg, front, due[n]);
        }
      }
    }
  }

  lemma HandledStays(cfg: Config, qs: seq<Quote>, ports: Ports, rcfg: RunnerConfig, w: Walk, c: Cert, other: Cert)
    requires Quoted(qs, c) && Handled(ports, rcfg, w, other)
    ensures Handled(ports, rcfg, Visit(cfg, qs, ports, rcfg, w, c), other)
  {
    hide SettlementPayout;
    var w' := Visit(cfg, qs, ports, rcfg, w, c);
    if k :| 0 <= k < |w.paid| && w.paid[k].reference == other.terms.quoteId {
      assert w'.paid[k] == w.paid[k];
    }
  }

  lemma HandledNow(cfg: Config, qs: seq<Quote>, ports: Ports, rcfg: RunnerConfig, w: Walk, c: Cert)
    requires Quoted(qs, c) && Visit(cfg, qs, ports, rcfg, w, c).stopped == None
    ensures Handled(ports, rcfg, Visit(cfg, qs, ports, rcfg, w, c), c)
  {
    hide SettlementPayout;
    var w' := Visit(cfg, qs, ports, rcfg, w, c);
    if |w'.paid| == |w.paid| + 1 {
      KindOfSettlement(cfg, qs, c, ports.priceOf(c).value, ports.feesOf(c).value);
      assert w'.paid[|w.paid|].reference == c.terms.quoteId;
    }
  }

  /**
   * What a walk that goes on past a certificate did with it: deferred for a price that diverges too much;
   * else settled, for the amount its settlement owes, if both its caps fit in what was left, and left short by
   * what they lack otherwise.
   */
  lemma WalkDecides(cfg: Config, qs: seq<Quote>, ports: Ports, rcfg: RunnerConfig, budget: int, due: seq<Cert>, i: nat)
    requires AllQuoted(qs, due) && i < |due| && WalkAll(cfg, qs, ports, rcfg, budget, due[..i + 1]).stopped == None
    ensures ports.priceOf(due[i]).Answered?
    ensures var c, reading := due[i], ports.priceOf(due[i]).value;
      var w, w' := WalkAll(cfg, qs, ports, rcfg, budget, due[..i]), WalkAll(cfg, qs, ports, rcfg, budget, due[..i + 1]);
      if reading.divergenceBps > rcfg.maxDivergenceBps then w' == w.(deferred := w.deferred + [c.terms.quoteId])
      else if c.terms.capDown + c.terms.capUp <= w.left then
        && ports.feesOf(c).Answered?
        && var n := QuoteById(qs, c.terms.quoteId);
        && n < |qs|
        && var amount := SettlementAmount(Payoff(cfg, qs[n].terms, c.terms, reading.price),
                                          FeeSplit(cfg, ports.feesOf(c).value), c.terms.capUp);
           w' == w.(left := w.left - amount,
                    paid := w.paid + [Payout(ForSettlement, c.terms.quoteId, c.terms.buyer, amount)])
      else
        w' == w.(shortfall := Some((if w.shortfall == None then 0 else w.shortfall.value)
                                   + c.terms.capDown + c.terms.capUp - w.left))
  {
    hide Payoff, FeeSplit, SettlementAmount, QuoteById;
    WalkNext(cfg, qs, ports, rcfg, budget, due, i);
    assert Quoted(qs, due[i]);
  }

  // ---- Where a walk stops ----

  /**
   * The price port throws; or, for an undisputed price, the fee port throws or reports negative fees on an
   * affordable certificate.
   */
  predicate StopsOn(ports: Ports, rcfg: RunnerConfig, left: int, c: Cert) {
    || ports.priceOf(c).Threw?
    || (!Diverges(ports, rcfg, c)
        && (ports.feesOf(c).Threw? || (Worst(c) <= left && ports.feesOf(c).value < 0)))
  }

  ghost predicate StopsAt(cfg: Config, qs: seq<Quote>, ports: Ports, rcfg: RunnerConfig, budget: int, due: seq<Cert>, k: nat)
    requires AllQuoted(qs, due) && k < |due|
  {
    var w := WalkAll(cfg, qs, ports, rcfg, budget, due[..k]);
    w.stopped == None && StopsOn(ports, rcfg, w.left, due[k])
  }

  /** Negative fees stop a walk as bad fees, anything else as a port that threw. */
  lemma StopReason(cfg: Config, qs: seq<Quote>, ports: Ports, rcfg: RunnerConfig, budget: int, due: seq<Cert>, k: nat)
    requires AllQuoted(qs, due) && k < |due| && StopsAt(cfg, qs, ports, rcfg, budget, due, k)
    ensures WalkAll(cfg, qs, ports, rcfg, budget, due[..k + 1]).stopped
         == Some(if ports.priceOf(due[k]).Answered? && ports.feesOf(due[k]).Answered? then BadFees else PortThrew)
  {
    WalkNext(cfg, qs, ports, rcfg, budget, due, k);
  }

  lemma VisitStops(cfg: Config, qs: seq<Quote>, ports: Ports, rcfg: RunnerConfig, w: Walk, c: Cert)
    requires Quoted(qs, c)
    ensures Visit(cfg, qs, ports, rcfg, w, c).stopped.Some? <==> w.stopped.Some? || StopsOn(ports, rcfg, w.left, c)
    ensures w.stopped.Some? ==> Visit(cfg, qs, ports, rcfg, w, c) == w
    ensures Visit(cfg, qs, ports, rcfg, w, c).stopped.Some? ==>
              Visit(cfg, qs, ports, rcfg, w, c) == w.(stopped := Visit(cfg, qs, ports, rcfg, w, c).stopped)
  {
    hide SettlementPayout;
  }

  lemma {:induction false} StopFound(cfg: Config, qs: seq<Quote>, ports: Ports, rcfg: RunnerConfig, budget: int,
                                     due: seq<Cert>) returns (k: nat)
    requires AllQuoted(qs, due) && WalkAll(cfg, qs, ports, rcfg, budget, due).stopped.Some?
    ensures k < |due| && StopsAt(cfg, qs, ports, rcfg, budget, due, k)
  {
    hide Visit, StopsOn;
    var n := |due| - 1;
    if WalkAll(cfg, qs, ports, rcfg, budget, due[..n]).stopped.Some? {
      k := StopFound(cfg, qs, ports, rcfg, budget, due[..n]);
      assert due[..n][..k] == due[..k] && due[..n][k] == due[k];
    } else {
      VisitStops(cfg, qs, ports, rcfg, WalkAll(cfg, qs, ports, rcfg, budget, due[..n]), due[n]);
      k := n;
    }
  }

  /** A certificate with an undisputed price that the whole budget can afford. */
  predicate Payable(ports: Ports, rcfg: RunnerConfig, budget: int, c: Cert) {
    ports.priceOf(c).Answered? && !Diverges(ports, rcfg, c) && Worst(c) <= budget
  }

  /** An unstopped walk settles nothing exactly when nothing it met was payable. */
  lemma {:induction false} NothingSettled(cfg: Config, qs: seq<Quote>, ports: Ports, rcfg: RunnerConfig, budget: int,
                                          due: seq<Cert>)
    requires AllQuoted(qs, due) && WalkAll(cfg, qs, ports, rcfg, budget, due).stopped == None
    ensures var w := WalkAll(cfg, qs, ports, rcfg, budget, due);
            && (w.paid == [] ==> w.left == budget)
            && (w.paid == [] <==> forall k :: 0 <= k < |due| ==> !Payable(ports, rcfg, budget, due[k]))
  {
    hide SettlementPayout;
    if due != [] {
      var n := |due| - 1;
      NothingSettled(cfg, qs, ports, rcfg, budget, due[..n]);
      assert forall k :: 0 <= k < n ==> due[..n][k] == due[k];
    }
  }

  /**
   * What a stop strands: the settlements made before it, all of them logged and none of them paid. There are
   * none exactly when nothing before the certificate that stopped the walk was payable.
   */
  lemma {:induction false} StopStrands(cfg: Config, qs: seq<Quote>, ports: Ports, rcfg: RunnerConfig, budget: int,
                                       due: seq<Cert>, k: nat)
    requires AllQuoted(qs, due) && k < |due| && StopsAt(cfg, qs, ports, rcfg, budget, due, k)
    ensures var w := WalkAll(cfg, qs, ports, rcfg, budget, due);
            && w.stopped.Some?
            && w.paid == WalkAll(cfg, qs, ports, rcfg, budget, due[..k]).paid
            && (w.paid == [] <==> forall j :: 0 <= j < k ==> !Payable(ports, rcfg, budget, due[j]))
    decreases |due|
  {
    hide Visit, StopsOn, Payable;
    var n := |due| - 1;
    if k == n {
      VisitStops(cfg, qs, ports, rcfg, WalkAll(cfg, qs, ports, rcfg, budget, due[..n]), due[n]);
      NothingSettled(cfg, qs, ports, rcfg, budget, due[..n]);
      assert forall j :: 0 <= j < n ==> due[..n][j] == due[j];
    } else {
      assert due[..n][..k] == due[..k] && due[..n][k] == due[k];
      StopStrands(cfg, qs, ports, rcfg, budget, due[..n], k);
      VisitStops(cfg, qs, ports, rcfg, WalkAll(cfg, qs, ports, rcfg, budget, due[..n]), due[n]);
      assert forall j :: 0 <= j < k ==> due[..n][j] == due[j];
    }
  }

  /** A walk stops if and only if one of the due certificates it reaches stops it. */
  lemma StoppedExactly(cfg: Config, qs: seq<Quote>, ports: Ports, rcfg: RunnerConfig, budget: int, due: seq<Cert>)
    requires AllQuoted(qs, due)
    ensures WalkAll(cfg, qs, ports, rcfg, budget, due).stopped.Some?
            <==> exists k :: 0 <= k < |due| && StopsAt(cfg, qs, ports, rcfg, budget, due, k)
  {
    hide WalkAll, StopsAt;
    if WalkAll(cfg, qs, ports, rcfg, budget, due).stopped.Some? {
      var k := StopFound(cfg, qs, ports, rcfg, budget, due);
    } else if k :| 0 <= k < |due| && StopsAt(cfg, qs, ports, rcfg, budget, due, k) {
      StopStrands(cfg, qs, ports, rcfg, budget, due, k);
    }
  }

  // ---- The refund sweep ----

  /** What a sweep at a given time takes for one payment. */
  function SweepOf(s: State, minRefund: int, now: int): Payment -> int {
    (p: Payment) => if !p.matched && p.terms.amount >= minRefund && Refundable(s, now, p.terms) then p.terms.amount else 0
  }

  /** The unmatched payments that are not dust and can no longer activate. */
  function SweepTotal(s: State, minRefund: int, now: int): int { Sum(s.payments, SweepOf(s, minRefund, now)) }

  lemma StaleStaysStale(s: State, now: int, later: int, p: PaymentTerms)
    requires now <= later && Refundable(s, now, p)
    ensures Refundable(s, later, p)
  {
  }

  lemma SweepOfGrows(s: State, minRefund: int, now: int, later: int, p: Payment)
    requires now <= later
    ensures 0 <= SweepOf(s, minRefund, now)(p) <= SweepOf(s, minRefund, later)(p)
  {
    if Refundable(s, now, p.terms) {
      StaleStaysStale(s, now, later, p.terms);
    }
  }

  /** A later sweep takes at least as much. */
  lemma SweepGrows(s: State, minRefund: int, now: int, later: int)
    requires now <= later
    ensures SweepTotal(s, minRefund, now) <= SweepTotal(s, minRefund, later)
  {
    forall k | 0 <= k < |s.payments|
      ensures SweepOf(s, minRefund, now)(s.payments[k]) <= SweepOf(s, minRefund, later)(s.payments[k])
    {
      SweepOfGrows(s, minRefund, now, later, s.payments[k]);
    }
    SumAtMost(s.payments, SweepOf(s, minRefund, now), SweepOf(s, minRefund, later));
  }

  /** Settling changes neither the payments nor the quotes, so it changes no sweep. */
  lemma SweepUnmoved(s: State, s': State, minRefund: int, now: int)
    requires s'.payments == s.payments && s'.quotes == s.quotes
    ensures SweepTotal(s', minRefund, now) == SweepTotal(s, minRefund, now)
  {
    SumSame(s.payments, SweepOf(s', minRefund, now), SweepOf(s, minRefund, now));
  }
}
