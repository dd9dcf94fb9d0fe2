/** What holds in every state an order log replays to. */
module OrderSafety {
  import opened Outcomes
  import opened OrderLog

  ghost predicate IdsDistinct(s: State) {
    forall i, k :: 0 <= i < k < |s.orders| ==> s.orders[i].orderId != s.orders[k].orderId
  }

  /** From now on no two payable orders ask for the same amount. */
  ghost predicate AmountsDistinct(s: State, now: int) {
    forall i, k :: 0 <= i < k < |s.orders| && Payable(s.orders[i], now) && Payable(s.orders[k], now) ==>
      s.orders[i].amount != s.orders[k].amount
  }

  /** A signature is attached to at most one order, and is marked used. */
  ghost predicate SignaturesOnce(s: State) {
    && (forall i :: 0 <= i < |s.orders| && s.orders[i].payment.Some? ==> s.orders[i].payment.value.txSignature in s.used)
    && forall i, k :: 0 <= i < k < |s.orders| && s.orders[i].payment.Some? && s.orders[k].payment.Some? ==>
         s.orders[i].payment.value.txSignature != s.orders[k].payment.value.txSignature
  }

  /** Delivery only ever follows the exact payment; an order without a payment was never credited. */
  ghost predicate PaidExactly(o: Order) {
    && (o.status.Paid? || o.status.Fulfilled? ==> o.payment.Some? && o.payment.value.amount == o.amount)
    && (o.status.AwaitingPayment? || o.status.Expired? ==> o.payment.None?)
    && (o.status.RefundDue? ==> o.payment.Some?)
    && (o.grant.Some? ==> o.status.Fulfilled?)
  }

  ghost predicate AllPaidExactly(s: State) {
    forall i :: 0 <= i < |s.orders| ==> PaidExactly(s.orders[i])
  }

  ghost predicate Inv(s: State, now: int) {
    IdsDistinct(s) && AmountsDistinct(s, now) && SignaturesOnce(s) && AllPaidExactly(s)
  }

  /** Time passing only makes fewer orders payable. */
  lemma LaterHolds(s: State, now: int, later: int)
    requires Inv(s, now) && now <= later
    ensures Inv(s, later)
  {
  }

  lemma CreatedKeeps(s: State, o: Order, now: int)
    requires Inv(s, now) && AmountFree(s, o.amount, now)
    requires o.status.AwaitingPayment? && o.payment.None? && o.grant.None?
    ensures Inv(s.(orders := Put(s.orders, o)), now)
  {
    hide Find;
  }

  /** An order that stops awaiting payment, or changes only its grant, cannot break the others. */
  lemma ChangedKeeps(s: State, o: Order, used: set<Id>, now: int)
    requires Inv(s, now) && Known(s, o.orderId)
    requires o.amount == OrderOf(s, o.orderId).amount && PaidExactly(o) && !o.status.AwaitingPayment?
    requires s.used <= used
    requires o.payment.Some? ==> o.payment.value.txSignature in used
    requires o.payment == OrderOf(s, o.orderId).payment || (o.payment.Some? && o.payment.value.txSignature !in s.used)
    ensures Inv(State(Put(s.orders, o), used), now)
  {
    hide Find;
  }

  lemma StepKeeps(cfg: CommerceConfig, s: State, e: Event, read: int, now: int)
    requires Inv(s, now) && now <= e.ts && now <= read && Allowed(cfg, s, e, read)
    ensures Apply(s, e).Ok? && Inv(Apply(s, e).value, if e.ts >= read then e.ts else read)
  {
    LaterHolds(s, now, e.ts);
    LaterHolds(s, now, read);
    match e
    case OrderCreated(ts, o) => CreatedKeeps(s, o, read);
    case PaymentObserved(ts, id, p) =>
      ChangedKeeps(s, OrderOf(s, id).(status := Paid, payment := Some(p)), s.used + {p.txSignature}, ts);
    case OrderFulfilled(ts, id, grant) =>
      ChangedKeeps(s, OrderOf(s, id).(status := Fulfilled, grant := Some(grant)), s.used, ts);
    case OrderExpired(ts, id) =>
      ChangedKeeps(s, OrderOf(s, id).(status := Expired), s.used, ts);
    case DownloadRedeemed(ts, id, _) =>
      ChangedKeeps(s, OrderOf(s, id).(grant := None), s.used, ts);
    case RefundOwed(ts, id, _, refund) =>
      ChangedKeeps(s, OrderOf(s, id).(status := RefundDue, payment := refund), s.used + {refund.value.txSignature}, ts);
  }

  /**
   * In the state any written log replays to, and from its last event on, payable orders ask for
   * different amounts, a signature belongs to at most one order, and nothing is delivered without
   * the exact payment.
   */
  lemma {:induction false} InvariantOfLog(cfg: CommerceConfig, log: seq<Event>, readings: seq<int>, now: int)
    requires IsLog(cfg, log, readings)
    requires log != [] ==> LastRead(log, readings) <= now
    ensures Replay(log).Ok? && Inv(Replay(log).value, now)
  {
    if log != [] {
      var n := |log| - 1;
      var before, past, e, read := log[..n], readings[..n], log[n], readings[n];
      var since := if n > 0 then LastRead(before, past) else if e.ts <= read then e.ts else read;
      InvariantOfLog(cfg, before, past, since);
      StepKeeps(cfg, Replay(before).value, e, read, since);
      LaterHolds(Replay(log).value, LastRead(log, readings), now);
    }
  }

  // -------------------------------------------------------------------------
  // Grants
  // -------------------------------------------------------------------------

  ghost function Issued(log: seq<Event>, id: Id): nat {
    if log == [] then 0
    else var e := log[|log| - 1];
      Issued(log[..|log| - 1], id) + if e.OrderFulfilled? && e.orderId == id then 1 else 0
  }

  ghost function Redeemed(log: seq<Event>, id: Id): nat {
    if log == [] then 0
    else var e := log[|log| - 1];
      Redeemed(log[..|log| - 1], id) + if e.DownloadRedeemed? && e.orderId == id then 1 else 0
  }

  ghost function Standing(s: State, id: Id): nat {
    if Known(s, id) && OrderOf(s, id).grant.Some? then 1 else 0
  }

  lemma FindIs(orders: seq<Order>, id: Id, i: nat)
    requires i <= |orders| && (i < |orders| ==> orders[i].orderId == id)
    requires forall k :: 0 <= k < i ==> orders[k].orderId != id
    ensures Find(orders, id) == i
  {
    if Find(orders, id) < i {
      assert false;
    }
  }

  lemma PutFound(orders: seq<Order>, o: Order, id: Id)
    ensures Find(Put(orders, o), o.orderId) == Find(orders, o.orderId) < |Put(orders, o)|
    ensures Put(orders, o)[Find(orders, o.orderId)] == o
    ensures id != o.orderId && Find(orders, id) < |orders| ==>
              Find(Put(orders, o), id) == Find(orders, id) && Put(orders, o)[Find(orders, id)] == orders[Find(orders, id)]
    ensures id != o.orderId && Find(orders, id) == |orders| ==> Find(Put(orders, o), id) == |Put(orders, o)|
  {
    hide Find;
    var after := Put(orders, o);
    FindIs(after, o.orderId, Find(orders, o.orderId));
    if id != o.orderId {
      FindIs(after, id, if Find(orders, id) < |orders| then Find(orders, id) else |after|);
    }
  }

  lemma StandingAfter(cfg: CommerceConfig, s: State, e: Event, read: int, id: Id)
    requires Allowed(cfg, s, e, read) && Apply(s, e).Ok?
    ensures e.OrderFulfilled? && e.orderId == id ==> Standing(Apply(s, e).value, id) == 1
    ensures e.DownloadRedeemed? && e.orderId == id ==> Standing(s, id) == 1 && Standing(Apply(s, e).value, id) == 0
    ensures !e.OrderFulfilled? || e.orderId != id ==> Standing(Apply(s, e).value, id) <= Standing(s, id)
  {
    hide Find, Put, Standing;
    match e
    case OrderCreated(_, o) => StandingPut(s, o, s.used, id);
    case PaymentObserved(_, oid, p) =>
      StandingPut(s, OrderOf(s, oid).(status := Paid, payment := Some(p)), s.used + {p.txSignature}, id);
    case OrderFulfilled(_, oid, g) =>
      StandingPut(s, OrderOf(s, oid).(status := Fulfilled, grant := Some(g)), s.used, id);
    case OrderExpired(_, oid) => StandingPut(s, OrderOf(s, oid).(status := Expired), s.used, id);
    case DownloadRedeemed(_, oid, _) => StandingPut(s, OrderOf(s, oid).(grant := None), s.used, id);
    case RefundOwed(_, oid, _, r) =>
      StandingPut(s, OrderOf(s, oid).(status := RefundDue, payment := r), s.used + {r.value.txSignature}, id);
  }

  lemma StandingPut(s: State, o: Order, used: set<Id>, id: Id)
    ensures var after := Standing(State(Put(s.orders, o), used), id);
            && (id == o.orderId ==> after == if o.grant.Some? then 1 else 0)
            && (id == o.orderId && Known(s, id) ==> Standing(s, id) == if OrderOf(s, id).grant.Some? then 1 else 0)
            && (id != o.orderId ==> after == Standing(s, id))
  {
    hide Find;
    PutFound(s.orders, o, id);
  }

  /** Every redemption uses up a grant: redeemed grants and the one still standing were all issued. */
  lemma {:induction false} RedeemedWereIssued(cfg: CommerceConfig, log: seq<Event>, readings: seq<int>, id: Id)
    requires IsLog(cfg, log, readings) && Replay(log).Ok?
    ensures Redeemed(log, id) + Standing(Replay(log).value, id) <= Issued(log, id)
  {
    if log != [] {
      var n := |log| - 1;
      RedeemedWereIssued(cfg, log[..n], readings[..n], id);
      StandingAfter(cfg, Replay(log[..n]).value, log[n], readings[n], id);
    }
  }

  /** Between two redemptions on an order a new grant is issued. */
  lemma OneRedemptionPerGrant(cfg: CommerceConfig, log: seq<Event>, readings: seq<int>, i: nat, k: nat, id: Id)
    requires IsLog(cfg, log, readings) && i < k < |log|
    requires log[i].DownloadRedeemed? && log[i].orderId == id && log[k].DownloadRedeemed? && log[k].orderId == id
    ensures exists j :: i < j < k && log[j].OrderFulfilled? && log[j].orderId == id
  {
    hide Replay, Standing, IsLog;
    if forall j :: i < j < k ==> !(log[j].OrderFulfilled? && log[j].orderId == id) {
      NoGrantSince(cfg, log, readings, i, k, id);
      StandingAt(cfg, log, readings, k, id);
    }
  }

  lemma {:induction false} NoGrantSince(cfg: CommerceConfig, log: seq<Event>, readings: seq<int>, i: nat, m: nat, id: Id)
    requires IsLog(cfg, log, readings) && i < m <= |log|
    requires log[i].DownloadRedeemed? && log[i].orderId == id
    requires forall j :: i < j < m ==> !(log[j].OrderFulfilled? && log[j].orderId == id)
    ensures Replay(log[..m]).Ok? && Standing(Replay(log[..m]).value, id) == 0
  {
    hide Replay, Standing, IsLog;
    StandingAt(cfg, log, readings, m - 1, id);
    if m > i + 1 {
      NoGrantSince(cfg, log, readings, i, m - 1, id);
    }
  }

  lemma StandingAt(cfg: CommerceConfig, log: seq<Event>, readings: seq<int>, k: nat, id: Id)
    requires IsLog(cfg, log, readings) && k < |log|
    ensures Replay(log[..k]).Ok? && Replay(log[..k + 1]).Ok?
    ensures var s, s', e := Replay(log[..k]).value, Replay(log[..k + 1]).value, log[k];
            && (e.DownloadRedeemed? && e.orderId == id ==> Standing(s, id) == 1 && Standing(s', id) == 0)
            && (!e.OrderFulfilled? || e.orderId != id ==> Standing(s', id) <= Standing(s, id))
  {
    PrefixIsLog(cfg, log, readings, k + 1);
    LogReplays(cfg, log, readings, k + 1);
    LogReplays(cfg, log, readings, k);
    var p, past := log[..k + 1], readings[..k + 1];
    assert p[..k] == log[..k] && p[k] == log[k];
    StandingAfter(cfg, Replay(p[..k]).value, p[k], past[k], id);
  }

  // -------------------------------------------------------------------------
  // The late payment
  // -------------------------------------------------------------------------

  /** An order marked expired takes no payment into the log, however exact and whenever it arrives. */
  lemma ExpiredOrderIgnoresPayment(s: State, id: Id, p: PaymentProof, now: int)
    requires Known(s, id) && OrderOf(s, id).status.Expired?
    ensures PaymentEvent(s, id, p, now) == None
  {
  }

  const SAMPLE_CONFIG := CommerceConfig(10, 0)
  const SAMPLE_ORDER := Order(Id("order"), Forward, 1_000_007, 0, 10, AwaitingPayment, None, None, None)
  const SAMPLE_LOG := [OrderCreated(0, SAMPLE_ORDER), OrderExpired(11, Id("order"))]

  lemma SampleStates()
    ensures Replay(SAMPLE_LOG[..1]) == Ok(State([SAMPLE_ORDER], {}))
    ensures Replay(SAMPLE_LOG) == Ok(State([SAMPLE_ORDER.(status := Expired)], {}))
    ensures Find([SAMPLE_ORDER], Id("order")) == Find([SAMPLE_ORDER.(status := Expired)], Id("order")) == 0
  {
    assert Put([], SAMPLE_ORDER) == [SAMPLE_ORDER];
    assert SAMPLE_LOG[..1][..0] == [] && Replay([]) == Ok(START);
    assert Put([SAMPLE_ORDER], SAMPLE_ORDER.(status := Expired)) == [SAMPLE_ORDER.(status := Expired)];
  }

  lemma SampleIsLog()
    ensures IsLog(SAMPLE_CONFIG, SAMPLE_LOG, [0, 11])
  {
    SampleStates();
    var first, readings := SAMPLE_LOG[..1], [0, 11][..1];
    assert readings == [0] && first == [OrderCreated(0, SAMPLE_ORDER)];
    assert first[..0] == [] && readings[..0] == [] && IsLog(SAMPLE_CONFIG, [], []) && Replay([]) == Ok(START);
    assert Allowed(SAMPLE_CONFIG, START, first[0], 0);
    assert IsLog(SAMPLE_CONFIG, first, readings);
    assert Allowed(SAMPLE_CONFIG, State([SAMPLE_ORDER], {}), SAMPLE_LOG[1], 11);
  }

  /**
   * An actual log: an order created at 0 with a life of 10 is marked expired at 11, and its exact payment,
   * under a fresh signature, is then neither credited nor owed back. A moment before the sweep it
   * would have been owed back.
   */
  lemma LatePaymentSample(p: PaymentProof)
    requires p.amount == SAMPLE_ORDER.amount
    ensures IsLog(SAMPLE_CONFIG, SAMPLE_LOG, [0, 11]) && Replay(SAMPLE_LOG[..1]).Ok? && Replay(SAMPLE_LOG).Ok?
    ensures p.txSignature !in Replay(SAMPLE_LOG).value.used
    ensures PaymentEvent(Replay(SAMPLE_LOG).value, Id("order"), p, 12) == None
    ensures PaymentEvent(Replay(SAMPLE_LOG[..1]).value, Id("order"), p, 12)
         == Some(RefundOwed(12, Id("order"), Some(p.txSignature), Some(p)))
  {
    SampleStates();
    SampleIsLog();
  }
}
