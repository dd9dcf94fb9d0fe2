/** Payouts as the log asks for them, and why no two of them are ever the same. */
module HedgePayouts {
  import opened HedgeTypes
  import opened HedgeTransitions
  import opened HedgeTrace
  import opened Sums

  datatype PayoutKind = ForSettlement | ForRefund
  datatype Payout = Payout(kind: PayoutKind, reference: Key, to: Key, amount: int)

  // ---- What the ledger says is owed ----

  predicate IsPayout(e: Event) { e.CertificateSettled? || e.PaymentRefunded? }

  /** The settlements and refunds among the events, in order. */
  function PayoutEvents(es: seq<Event>): seq<Event> {
    if es == [] then []
    else PayoutEvents(es[..|es| - 1]) + (if IsPayout(es[|es| - 1]) then [es[|es| - 1]] else [])
  }

  lemma PayoutEventsAppend(es: seq<Event>, e: Event)
    ensures PayoutEvents(es + [e]) == PayoutEvents(es) + (if IsPayout(e) then [e] else [])
  {
    assert (es + [e])[..|es|] == es;
  }

  lemma {:induction false} PayoutEventsQuiet(es: seq<Event>, more: seq<Event>)
    requires forall k :: 0 <= k < |more| ==> !IsPayout(more[k])
    ensures PayoutEvents(es + more) == PayoutEvents(es)
  {
    if more == [] {
      assert es + more == es;
    } else {
      var m := more[..|more| - 1];
      PayoutEventsQuiet(es, m);
      assert es + more == (es + m) + [more[|more| - 1]];
      PayoutEventsAppend(es + m, more[|more| - 1]);
    }
  }

  /** The payout an event asks for, up to its recipient. */
  predicate Owes(e: Event, p: Payout) {
    match e
    case CertificateSettled(_, id, _, _, _, amount, _) =>
      p.kind == ForSettlement && p.reference == id && p.amount == amount
    case PaymentRefunded(_, tx, amount, _) =>
      p.kind == ForRefund && p.reference == tx && p.amount == amount
    case _ => false
  }

  /** Settlements go to the buyer of the certificate, refunds to the sender of the payment. */
  predicate RightParty(s: State, p: Payout) {
    match p.kind
    case ForSettlement =>
      var i := CertById(s.certs, p.reference);
      i < |s.certs| && p.to == s.certs[i].terms.buyer
    case ForRefund =>
      var i := PaymentByTx(s.payments, p.reference);
      i < |s.payments| && p.to == s.payments[i].terms.sender
  }

  /** One payout per settlement or refund of the events, in their order, to the right party. */
  predicate Pays(s: State, es: seq<Event>, ps: seq<Payout>) {
    var owed := PayoutEvents(es);
    && |ps| == |owed|
    && forall k :: 0 <= k < |ps| ==> Owes(owed[k], ps[k]) && RightParty(s, ps[k])
  }

  /** Terms stay where they are. */
  predicate SameTerms(s: State, s': State) {
    && |s'.certs| == |s.certs| && |s'.payments| == |s.payments|
    && (forall k :: 0 <= k < |s.certs| ==> s'.certs[k].terms == s.certs[k].terms)
    && (forall k :: 0 <= k < |s.payments| ==> s'.payments[k].terms == s.payments[k].terms)
  }

  lemma PaysOnce(s: State, es: seq<Event>, ps: seq<Payout>, e: Event, p: Payout, s': State)
    requires Pays(s, es, ps) && SameTerms(s, s') && Owes(e, p) && RightParty(s', p)
    ensures Pays(s', es + [e], ps + [p])
  {
    PayoutEventsAppend(es, e);
    forall k | 0 <= k < |ps| ensures RightParty(s', ps[k]) {
      assert RightParty(s, ps[k]);
      CertIndexKept(s.certs, s'.certs, ps[k].reference);
      PaymentIndexKept(s.payments, s'.payments, ps[k].reference);
    }
  }

  function AmountDue(p: Payout): int { p.amount }
  function Owed(ps: seq<Payout>): int { Sum(ps, AmountDue) }

  lemma {:induction false} PayoutEventsConcat(es: seq<Event>, more: seq<Event>)
    ensures PayoutEvents(es + more) == PayoutEvents(es) + PayoutEvents(more)
  {
    if more == [] {
      assert es + more == es;
    } else {
      PayoutEventsConcat(es, more[..|more| - 1]);
      assert (es + more)[..|es + more| - 1] == es + more[..|more| - 1];
    }
  }

  // ---- Nothing is owed twice ----

  predicate SameKey(p: Payout, q: Payout) { p.kind == q.kind && p.reference == q.reference }

  ghost predicate DistinctKeys(ps: seq<Payout>) {
    forall i, j :: 0 <= i < j < |ps| ==> !SameKey(ps[i], ps[j])
  }

  /** The payouts are those the events ask for, one each and in order, whoever receives them. */
  ghost predicate Matches(es: seq<Event>, ps: seq<Payout>) {
    var owed := PayoutEvents(es);
    |ps| == |owed| && forall k :: 0 <= k < |ps| ==> Owes(owed[k], ps[k])
  }

  /** Two payout events of a segment are two events of the log. */
  lemma {:induction false} TwoPlaces(es: seq<Event>, j: nat, k: nat) returns (a: nat, b: nat)
    requires j < k < |PayoutEvents(es)|
    ensures a < b < |es| && es[a] == PayoutEvents(es)[j] && es[b] == PayoutEvents(es)[k]
  {
    var n := |es| - 1;
    if k < |PayoutEvents(es[..n])| {
      a, b := TwoPlaces(es[..n], j, k);
    } else {
      a := OnePlace(es[..n], j);
      b := n;
    }
  }

  lemma {:induction false} OnePlace(es: seq<Event>, j: nat) returns (a: nat)
    requires j < |PayoutEvents(es)|
    ensures a < |es| && es[a] == PayoutEvents(es)[j]
  {
    var n := |es| - 1;
    if j < |PayoutEvents(es[..n])| {
      a := OnePlace(es[..n], j);
    } else {
      a := n;
    }
  }

  lemma TwoEventsTwoKeys(cfg: Config, states: seq<State>, log: seq<Event>, i: nat, j: nat, p: Payout, q: Payout)
    requires cfg.Sane() && History(cfg, states, log) && i < j < |log|
    requires Owes(log[i], p) && Owes(log[j], q)
    ensures !SameKey(p, q)
  {
    hide History;
    if SameKey(p, q) {
      ExactlyOnce(cfg, states, log, p.reference, p.reference);
      if p.kind == ForSettlement {
        SumDominatesPair(log, i, j, SettlementsOf(p.reference));
      } else {
        SumDominatesPair(log, i, j, Refunds(p.reference));
      }
      assert false;
    }
  }

  /**
   * Whatever stretch of a run's log payouts are made for, be it one cycle or any number of them, no two
   * of them settle one quote id or refund one signature.
   */
  lemma NothingIsPaidTwice(cfg: Config, states: seq<State>, log: seq<Event>, from: nat, ps: seq<Payout>)
    requires cfg.Sane() && History(cfg, states, log) && from <= |log| && Matches(log[from..], ps)
    ensures DistinctKeys(ps)
  {
    hide History, PayoutEvents, Owes;
    var es := log[from..];
    forall i, j | 0 <= i < j < |ps| ensures !SameKey(ps[i], ps[j]) {
      var a, b := TwoPlaces(es, i, j);
      assert es[a] == log[from + a] && es[b] == log[from + b];
      TwoEventsTwoKeys(cfg, states, log, from + a, from + b, ps[i], ps[j]);
    }
  }

  /** The payouts worth a transfer. */
  function ToPay(ps: seq<Payout>): seq<Payout> {
    if ps == [] then []
    else ToPay(ps[..|ps| - 1]) + (if ps[|ps| - 1].amount > 0 then [ps[|ps| - 1]] else [])
  }

  lemma {:induction false} ToPayDistinct(ps: seq<Payout>)
    requires DistinctKeys(ps)
    ensures DistinctKeys(ToPay(ps))
    ensures forall p :: p in ToPay(ps) <==> p in ps && p.amount > 0
  {
    if ps != [] {
      var front, last := ps[..|ps| - 1], ps[|ps| - 1];
      assert ps == front + [last];
      ToPayDistinct(front);
      forall i | 0 <= i < |ToPay(front)| ensures !SameKey(ToPay(front)[i], last) {
        assert ToPay(front)[i] in front;
        var k :| 0 <= k < |front| && front[k] == ToPay(front)[i];
        assert !SameKey(ps[k], ps[|ps| - 1]);
      }
    }
  }

  // ---- Segments of the log ----

  /** The log only grew, and what it grew by is that segment. */
  ghost predicate Continues(before: seq<Event>, after: seq<Event>) {
    |before| <= |after| && after[..|before|] == before
  }

  ghost predicate Quiet(es: seq<Event>) {
    forall k :: 0 <= k < |es| ==> !IsPayout(es[k])
  }

  lemma SettledSegment(s: State, start: seq<Event>, before: seq<Event>, pending: seq<Payout>,
                       after: seq<Event>, p: Payout, s': State)
    requires Continues(start, before) && Pays(s, before[|start|..], pending)
    requires |after| == |before| + 1 && Continues(before, after)
    requires SameTerms(s, s') && Owes(after[|before|], p) && RightParty(s', p)
    ensures Continues(start, after) && Pays(s', after[|start|..], pending + [p])
  {
    PaysOnce(s, before[|start|..], pending, after[|before|], p, s');
    assert after[|start|..] == before[|start|..] + [after[|before|]];
  }

  /** Quiet events before the payouts change nothing. */
  lemma QuietThenPays(start: seq<Event>, a: seq<Event>, b: seq<Event>, s: State, ps: seq<Payout>)
    requires Continues(start, a) && Quiet(a[|start|..]) && Continues(a, b) && Pays(s, b[|a|..], ps)
    ensures Continues(start, b) && Pays(s, b[|start|..], ps)
  {
    hide PayoutEvents, RightParty, Owes, IsPayout;
    var x, y := a[|start|..], b[|a|..];
    assert b[|start|..] == x + y;
    PayoutEventsConcat(x, y);
    NoPayoutEvents(x);
  }

  lemma NoPayoutEvents(es: seq<Event>)
    requires Quiet(es)
    ensures PayoutEvents(es) == []
  {
    PayoutEventsQuiet([], es);
    assert [] + es == es;
  }

  /** Quiet events, then the settlements, then the refunds: together they are what the log owes. */
  lemma WholeSegment(start: seq<Event>, a: seq<Event>, b: seq<Event>, c: seq<Event>, s1: State, s2: State,
                     settlements: seq<Payout>, refunds: seq<Payout>)
    requires Continues(start, a) && Quiet(a[|start|..])
    requires Continues(a, b) && Pays(s1, b[|a|..], settlements)
    requires Continues(b, c) && Pays(s2, c[|b|..], refunds) && SameTerms(s1, s2)
    ensures Continues(start, c) && Pays(s2, c[|start|..], settlements + refunds)
  {
    hide Pays, Quiet, SameTerms;
    var y, z := b[|a|..], c[|b|..];
    assert c[|a|..] == y + z;
    PaysStill(s1, s2, y, settlements);
    PaysConcat(s2, y, z, settlements, refunds);
    QuietThenPays(start, a, c, s2, settlements + refunds);
  }

  lemma PaysStill(s1: State, s2: State, es: seq<Event>, ps: seq<Payout>)
    requires Pays(s1, es, ps) && SameTerms(s1, s2)
    ensures Pays(s2, es, ps)
  {
    hide PayoutEvents, RightParty, SameTerms, Owes;
    forall k | 0 <= k < |ps| ensures RightParty(s2, ps[k]) {
      SameParty(s1, s2, ps[k]);
    }
  }

  lemma PaysConcat(s: State, es: seq<Event>, more: seq<Event>, ps: seq<Payout>, qs: seq<Payout>)
    requires Pays(s, es, ps) && Pays(s, more, qs)
    ensures Pays(s, es + more, ps + qs)
  {
    hide PayoutEvents, RightParty, Owes;
    PayoutEventsConcat(es, more);
  }

  lemma SameParty(s1: State, s2: State, p: Payout)
    requires SameTerms(s1, s2) && RightParty(s1, p)
    ensures RightParty(s2, p)
  {
    hide CertById, PaymentByTx;
    CertIndexKept(s1.certs, s2.certs, p.reference);
    PaymentIndexKept(s1.payments, s2.payments, p.reference);
  }
}
