/**
 * The order ledger as an event-sourced state machine: what each event does to the state, which
 * events the live ledger may append in a state, and the states a log replays to.
 */
module OrderLog {
  import opened Outcomes

  /** Order ids, transaction signatures, wallets, token hashes. */
  datatype Id = Id(text: string)

  datatype Product = Forward | ArchivePreOrder {
    function Price(): nat { match this case Forward => 1_000_000 case ArchivePreOrder => 200_000_000 }
    predicate PreOrder() { ArchivePreOrder? }
  }

  datatype OrderStatus = AwaitingPayment | Paid | Fulfilled | Expired | RefundDue

  datatype PaymentProof = PaymentProof(txSignature: Id, amount: int, sender: Id, slot: nat, observedAt: int)

  /** A download grant: the hash of its token and when it stops working. */
  datatype Grant = Grant(token: Id, expiresAt: int)

  datatype Order = Order(
    orderId: Id, product: Product, amount: int, createdAt: int, expiresAt: int,
    status: OrderStatus, payment: Option<PaymentProof>, claimHash: Option<Id>, grant: Option<Grant>)

  datatype Event =
    | OrderCreated(ts: int, order: Order)
    | PaymentObserved(ts: int, orderId: Id, payment: PaymentProof)
    | OrderFulfilled(ts: int, orderId: Id, grant: Grant)
    | OrderExpired(ts: int, orderId: Id)
    | DownloadRedeemed(ts: int, orderId: Id, tokenHash: Id)
    | RefundOwed(ts: int, orderId: Id, txSignature: Option<Id>, refund: Option<PaymentProof>)

  datatype OrderError = UnknownOrder | WrongStatus | IsPreOrder | NoUniqueAmount

  datatype CommerceConfig = CommerceConfig(orderTtl: int, downloadTtl: int)

  /** The orders map in insertion order, and the set of used signatures. */
  datatype State = State(orders: seq<Order>, used: set<Id>)

  const START := State([], {})

  // -------------------------------------------------------------------------
  // The orders map
  // -------------------------------------------------------------------------

  function Find(orders: seq<Order>, id: Id): (i: nat)
    ensures i <= |orders|
    ensures i < |orders| ==> orders[i].orderId == id
    ensures forall k :: 0 <= k < i ==> orders[k].orderId != id
  {
    if orders == [] then 0 else if orders[0].orderId == id then 0 else 1 + Find(orders[1..], id)
  }

  predicate Known(s: State, id: Id) { Find(s.orders, id) < |s.orders| }

  function OrderOf(s: State, id: Id): Order
    requires Known(s, id)
  {
    s.orders[Find(s.orders, id)]
  }

  /** Map.set: an existing id keeps its place. */
  function Put(orders: seq<Order>, order: Order): seq<Order> {
    var i := Find(orders, order.orderId);
    if i < |orders| then orders[i := order] else orders + [order]
  }

  predicate Payable(o: Order, now: int) { o.status.AwaitingPayment? && now <= o.expiresAt }

  // -------------------------------------------------------------------------
  // Replay
  // -------------------------------------------------------------------------

  /** What fromEvents does with one event, whatever log it comes from. */
  function Apply(s: State, e: Event): Result<State, OrderError> {
    match e
    case OrderCreated(_, order) => Ok(s.(orders := Put(s.orders, order)))
    case PaymentObserved(_, id, payment) =>
      if !Known(s, id) then Err(UnknownOrder)
      else Ok(State(Put(s.orders, OrderOf(s, id).(status := Paid, payment := Some(payment))),
                    s.used + {payment.txSignature}))
    case OrderFulfilled(_, id, grant) =>
      if !Known(s, id) then Err(UnknownOrder)
      else Ok(s.(orders := Put(s.orders, OrderOf(s, id).(status := Fulfilled, grant := Some(grant)))))
    case OrderExpired(_, id) =>
      Ok(if Known(s, id) then s.(orders := Put(s.orders, OrderOf(s, id).(status := Expired))) else s)
    case DownloadRedeemed(_, id, _) =>
      Ok(if Known(s, id) then s.(orders := Put(s.orders, OrderOf(s, id).(grant := None))) else s)
    case RefundOwed(_, id, txSignature, refund) =>
      var orders :=
        if !Known(s, id) then s.orders
        else if refund.Some? then Put(s.orders, OrderOf(s, id).(status := RefundDue, payment := refund))
        else Put(s.orders, OrderOf(s, id).(status := RefundDue));
      Ok(State(orders, if txSignature.Some? then s.used + {txSignature.value} else s.used))
  }

  function Replay(log: seq<Event>): Result<State, OrderError> {
    if log == [] then Ok(START)
    else
      var before := Replay(log[..|log| - 1]);
      if before.Err? then before else Apply(before.value, log[|log| - 1])
  }

  // -------------------------------------------------------------------------
  // What the live ledger may append
  // -------------------------------------------------------------------------

  /** No order payable at that time asks for this amount. */
  ghost predicate AmountFree(s: State, amount: int, now: int) {
    forall k :: 0 <= k < |s.orders| && Payable(s.orders[k], now) ==> s.orders[k].amount != amount
  }

  /** What observing a verified payment appends: a credit, a refund owed, or nothing at all. */
  function PaymentEvent(s: State, id: Id, p: PaymentProof, now: int): Option<Event> {
    if !Known(s, id) || p.txSignature in s.used || !OrderOf(s, id).status.AwaitingPayment? then None
    else if p.amount != OrderOf(s, id).amount || now > OrderOf(s, id).expiresAt then
      Some(RefundOwed(now, id, Some(p.txSignature), Some(p)))
    else Some(PaymentObserved(now, id, p))
  }

  /**
   * The event the ledger may append in a state, its guard having read the clock at the given time. Two
   * actions read the clock twice: creating an order stamps it before collecting the open amounts, and a
   * redemption is stamped after the grant was checked.
   */
  ghost predicate Allowed(cfg: CommerceConfig, s: State, e: Event, read: int) {
    match e
    case OrderCreated(ts, o) =>
      && ts <= read
      && o.status.AwaitingPayment? && o.payment.None? && o.grant.None?
      && o.createdAt == ts && o.expiresAt == ts + cfg.orderTtl
      && AmountFree(s, o.amount, read)
    case PaymentObserved(ts, id, p) => read == ts && PaymentEvent(s, id, p, ts) == Some(e)
    case RefundOwed(ts, id, _, refund) => read == ts && refund.Some? && PaymentEvent(s, id, refund.value, ts) == Some(e)
    case OrderFulfilled(ts, id, grant) =>
      && read == ts
      && Known(s, id) && grant.expiresAt == ts + cfg.downloadTtl
      && (OrderOf(s, id).status.Fulfilled? || (OrderOf(s, id).status.Paid? && !OrderOf(s, id).product.PreOrder()))
    case OrderExpired(ts, id) =>
      read == ts && Known(s, id) && OrderOf(s, id).status.AwaitingPayment? && ts > OrderOf(s, id).expiresAt
    case DownloadRedeemed(ts, id, hash) =>
      && read <= ts
      && Known(s, id) && OrderOf(s, id).grant.Some? && OrderOf(s, id).grant.value.token == hash
      && read <= OrderOf(s, id).grant.value.expiresAt
  }

  /** The last time the clock was read for a log. */
  function LastRead(log: seq<Event>, readings: seq<int>): int
    requires |log| == |readings| > 0
  {
    var ts, read := log[|log| - 1].ts, readings[|readings| - 1];
    if ts >= read then ts else read
  }

  /** A log the live ledger can have written, with the guards' readings of a clock that never goes back. */
  ghost predicate IsLog(cfg: CommerceConfig, log: seq<Event>, readings: seq<int>) {
    && |log| == |readings|
    && (log == [] ||
        var n := |log| - 1;
        var before, past, e, read := log[..n], readings[..n], log[n], readings[n];
        && IsLog(cfg, before, past)
        && (n > 0 ==> LastRead(before, past) <= e.ts && LastRead(before, past) <= read)
        && Replay(before).Ok?
        && Allowed(cfg, Replay(before).value, e, read))
  }

  lemma {:induction false} PrefixIsLog(cfg: CommerceConfig, log: seq<Event>, readings: seq<int>, k: nat)
    requires IsLog(cfg, log, readings) && k <= |log|
    ensures IsLog(cfg, log[..k], readings[..k])
    decreases |log| - k
  {
    if k < |log| {
      PrefixIsLog(cfg, log, readings, k + 1);
      assert log[..k + 1][..k] == log[..k] && readings[..k + 1][..k] == readings[..k];
    } else {
      assert log[..k] == log && readings[..k] == readings;
    }
  }

  lemma ReplayAppend(log: seq<Event>, e: Event)
    requires Replay(log).Ok?
    ensures Replay(log + [e]) == Apply(Replay(log).value, e)
  {
    assert (log + [e])[..|log|] == log;
  }

  lemma Extend(cfg: CommerceConfig, log: seq<Event>, readings: seq<int>, e: Event, read: int)
    requires IsLog(cfg, log, readings) && Replay(log).Ok? && Allowed(cfg, Replay(log).value, e, read)
    requires log != [] ==> LastRead(log, readings) <= e.ts && LastRead(log, readings) <= read
    ensures IsLog(cfg, log + [e], readings + [read])
    ensures Replay(log + [e]).Ok? && Replay(log + [e]) == Apply(Replay(log).value, e)
  {
    assert (log + [e])[..|log|] == log && (readings + [read])[..|readings|] == readings;
    ReplayAppend(log, e);
  }

  /** A log the ledger wrote never fails to replay, nor does any prefix of it. */
  lemma {:induction false} LogReplays(cfg: CommerceConfig, log: seq<Event>, readings: seq<int>, k: nat)
    requires IsLog(cfg, log, readings) && k <= |log|
    ensures Replay(log[..k]).Ok?
  {
    PrefixIsLog(cfg, log, readings, k);
    var p := log[..k];
    if p != [] {
      assert Allowed(cfg, Replay(p[..k - 1]).value, p[k - 1], readings[..k][k - 1]);
    }
  }
}
