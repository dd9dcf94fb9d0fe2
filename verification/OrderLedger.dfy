/** The live order ledger, changed in place, and its reconstruction from a log. */
module OrderLedger {
  import opened Outcomes
  import opened OrderLog
  import opened OrderSafety

  const TAG_ATTEMPTS: nat := 64

  function MaybeExpired(o: Order, now: int): Order {
    if o.status.AwaitingPayment? && now > o.expiresAt then o.(status := Expired) else o
  }

  function Appended(e: Option<Event>): seq<Event> { if e.Some? then [e.value] else [] }

  datatype Created = Created(order: Order, claimSecret: string)

  /**
   * A unique amount by rejection: up to 64 draws of a tag. It gives up only when all 64 collide,
   * which can happen while free tags are left.
   */
  method TaggedAmount(base: int, taken: set<int>, draws: seq<int>) returns (r: Option<int>)
    requires |draws| == TAG_ATTEMPTS
    ensures r.None? <==> forall k :: 0 <= k < |draws| ==> base + draws[k] in taken
    ensures r.Some? ==> r.value !in taken && exists k :: 0 <= k < |draws| && r.value == base + draws[k]
  {
    for attempt := 0 to TAG_ATTEMPTS
      invariant forall k :: 0 <= k < attempt ==> base + draws[k] in taken
    {
      var candidate := base + draws[attempt];
      if candidate !in taken {
        return Some(candidate);
      }
    }
    return None;
  }

  class Ledger {
    const cfg: CommerceConfig
    const sha256: string -> Id
    var orders: seq<Order>
    var used: set<Id>
    var events: seq<Event>
    ghost var readings: seq<int>

    ghost function Value(): State
      reads this
    {
      State(orders, used)
    }

    /** The fields are what the log replays to, and the log is one this ledger could write up to now. */
    ghost predicate Valid(now: int)
      reads this
    {
      && IsLog(cfg, events, readings)
      && (events != [] ==> LastRead(events, readings) <= now)
      && Replay(events) == Ok(Value())
    }

    constructor (cfg: CommerceConfig, sha256: string -> Id)
      ensures forall now :: Valid(now)
      ensures this.cfg == cfg && this.sha256 == sha256 && events == [] && Value() == START
    {
      this.cfg, this.sha256 := cfg, sha256;
      orders, used, events, readings := [], {}, [], [];
    }

    /** After its fields moved as replaying the event would move them, the event is appended. */
    method Commit(ghost before: State, e: Event, ghost read: int)
      requires IsLog(cfg, events, readings) && Replay(events) == Ok(before)
      requires events != [] ==> LastRead(events, readings) <= e.ts && LastRead(events, readings) <= read
      requires Allowed(cfg, before, e, read) && Apply(before, e) == Ok(Value())
      modifies this`events, this`readings
      ensures forall now :: e.ts <= now && read <= now ==> Valid(now)
      ensures events == old(events) + [e]
    {
      Extend(cfg, events, readings, e, read);
      events := events + [e];
      readings := readings + [read];
    }

    /** The amounts payable orders claim. */
    method OpenAmounts(now: int) returns (r: set<int>)
      ensures forall amount :: amount in r <==> !AmountFree(Value(), amount, now)
    {
      r := {};
      for k := 0 to |orders|
        invariant forall amount ::
            amount in r <==> exists i :: 0 <= i < k && Payable(orders[i], now) && orders[i].amount == amount
      {
        if Payable(orders[k], now) {
          r := r + {orders[k].amount};
        }
      }
    }

    /** The order is stamped first; the amounts in use are collected at a second reading of the clock. */
    method CreateOrder(product: Product, orderId: Id, claimSecret: string, draws: seq<int>, now: int, later: int)
      returns (r: Result<Created, OrderError>)
      requires Valid(now) && now <= later && |draws| == TAG_ATTEMPTS
      modifies this
      ensures Valid(later)
      ensures r.Err? ==> Value() == old(Value()) && events == old(events) && r.error == NoUniqueAmount
      ensures r.Ok? ==> events == old(events) + [OrderCreated(now, r.value.order)]
      ensures r.Ok? ==> r.value.order.orderId == orderId && r.value.order.product == product
                        && r.value.claimSecret == claimSecret && VerifyClaim(orderId, claimSecret)
      ensures r.Ok? ==> r.value.order == Order(orderId, product, r.value.order.amount, now, now + cfg.orderTtl,
                                               AwaitingPayment, None, Some(sha256(claimSecret)), None)
      ensures r.Ok? ==> AmountFree(old(Value()), r.value.order.amount, later)
                        && exists k :: 0 <= k < |draws| && r.value.order.amount == product.Price() + draws[k]
    {
      hide IsLog, Replay, Find;
      var taken := OpenAmounts(later);
      var amount := TaggedAmount(product.Price(), taken, draws);
      if amount.None? {
        return Err(NoUniqueAmount);
      }
      var order := Order(orderId, product, amount.value, now, now + cfg.orderTtl, AwaitingPayment,
                         None, Some(sha256(claimSecret)), None);
      ghost var before := Value();
      SetOrder(order);
      PutFound(before.orders, order, orderId);
      Commit(before, OrderCreated(now, order), later);
      return Ok(Created(order, claimSecret));
    }

    method SetOrder(order: Order)
      modifies this`orders
      ensures orders == Put(old(orders), order)
    {
      var i := Find(orders, order.orderId);
      if i < |orders| {
        orders := orders[i := order];
      } else {
        orders := orders + [order];
      }
    }

    predicate VerifyClaim(orderId: Id, rawClaim: string)
      reads this
    {
      var i := Find(orders, orderId);
      i < |orders| && orders[i].claimHash == Some(sha256(rawClaim))
    }

    /**
     * Exactly three outcomes change anything: the payment is credited, or a refund is owed because
     * the amount is wrong or the order has run out. A used signature, or an order that no longer
     * awaits payment, leaves no trace.
     */
    method ObservePayment(orderId: Id, payment: PaymentProof, now: int) returns (r: Result<Option<Order>, OrderError>)
      requires Valid(now)
      modifies this
      ensures Valid(now)
      ensures r.Err? <==> !Known(old(Value()), orderId)
      ensures r.Err? ==> events == old(events)
      ensures r.Ok? ==>
                var o := OrderOf(old(Value()), orderId);
                var creditable := payment.txSignature !in old(used) && o.status.AwaitingPayment?;
                var exact := payment.amount == o.amount && now <= o.expiresAt;
                && (!creditable ==> events == old(events))
                && (creditable && exact ==> events == old(events) + [PaymentObserved(now, orderId, payment)])
                && (creditable && !exact ==>
                      events == old(events) + [RefundOwed(now, orderId, Some(payment.txSignature), Some(payment))])
                && events == old(events) + Appended(PaymentEvent(old(Value()), orderId, payment, now))
                && (r.value.Some? <==> creditable && exact)
                && (r.value.Some? ==> r.value.value == o.(status := Paid, payment := Some(payment)))
    {
      hide IsLog, Replay, Find;
      var i := Find(orders, orderId);
      if i == |orders| {
        return Err(UnknownOrder);
      }
      var order := orders[i];
      if payment.txSignature in used {
        return Ok(None);
      }
      if !order.status.AwaitingPayment? {
        return Ok(None);
      }
      ghost var before := Value();
      if payment.amount != order.amount {
        used := used + {payment.txSignature};
        SetOrder(order.(status := RefundDue, payment := Some(payment)));
        Commit(before, RefundOwed(now, orderId, Some(payment.txSignature), Some(payment)), now);
        return Ok(None);
      }
      if now > order.expiresAt {
        used := used + {payment.txSignature};
        SetOrder(order.(status := RefundDue, payment := Some(payment)));
        Commit(before, RefundOwed(now, orderId, Some(payment.txSignature), Some(payment)), now);
        return Ok(None);
      }
      used := used + {payment.txSignature};
      SetOrder(order.(status := Paid, payment := Some(payment)));
      Commit(before, PaymentObserved(now, orderId, payment), now);
      return Ok(Some(order.(status := Paid, payment := Some(payment))));
    }

    method Fulfil(orderId: Id, raw: string, now: int) returns (r: Result<Grant, OrderError>)
      requires Valid(now)
      modifies this
      ensures Valid(now)
      ensures r.Ok? <==> Known(old(Value()), orderId) && OrderOf(old(Value()), orderId).status.Paid?
                         && !OrderOf(old(Value()), orderId).product.PreOrder()
      ensures r.Err? ==> events == old(events)
      ensures r.Err? ==> r.error == if !Known(old(Value()), orderId) then UnknownOrder
                                    else if !OrderOf(old(Value()), orderId).status.Paid? then WrongStatus else IsPreOrder
      ensures r.Ok? ==> r.value == Grant(sha256(raw), now + cfg.downloadTtl)
                        && events == old(events) + [OrderFulfilled(now, orderId, r.value)]
    {
      hide IsLog, Replay, Find;
      var i := Find(orders, orderId);
      if i == |orders| {
        return Err(UnknownOrder);
      }
      var order := orders[i];
      if !order.status.Paid? {
        return Err(WrongStatus);
      }
      if order.product.PreOrder() {
        return Err(IsPreOrder);
      }
      var grant := Grant(sha256(raw), now + cfg.downloadTtl);
      ghost var before := Value();
      SetOrder(order.(status := Fulfilled, grant := Some(grant)));
      Commit(before, OrderFulfilled(now, orderId, grant), now);
      return Ok(grant);
    }

    method ReissueDownloadToken(orderId: Id, raw: string, now: int) returns (r: Result<Grant, OrderError>)
      requires Valid(now)
      modifies this
      ensures Valid(now)
      ensures r.Ok? <==> Known(old(Value()), orderId) && OrderOf(old(Value()), orderId).status.Fulfilled?
      ensures r.Err? ==> events == old(events)
      ensures r.Ok? ==> r.value == Grant(sha256(raw), now + cfg.downloadTtl)
                        && events == old(events) + [OrderFulfilled(now, orderId, r.value)]
    {
      hide IsLog, Replay, Find;
      var i := Find(orders, orderId);
      if i == |orders| {
        return Err(UnknownOrder);
      }
      var order := orders[i];
      if !order.status.Fulfilled? {
        return Err(WrongStatus);
      }
      var grant := Grant(sha256(raw), now + cfg.downloadTtl);
      ghost var before := Value();
      SetOrder(order.(grant := Some(grant)));
      Commit(before, OrderFulfilled(now, orderId, grant), now);
      return Ok(grant);
    }

    /** A grant whose deadline is zero counts as absent, as the number zero does in the original. */
    predicate CheckDownloadToken(orderId: Id, rawToken: string, now: int)
      reads this
    {
      var i := Find(orders, orderId);
      && i < |orders| && orders[i].grant.Some? && orders[i].grant.value.expiresAt != 0
      && now <= orders[i].grant.value.expiresAt
      && sha256(rawToken) == orders[i].grant.value.token
    }

    /**
     * A grant that checks is consumed: no token checks again until a new grant is issued. The event is
     * stamped at a second reading of the clock.
     */
    method RedeemDownloadToken(orderId: Id, rawToken: string, now: int, later: int) returns (ok: bool)
      requires Valid(now) && now <= later
      modifies this
      ensures Valid(later)
      ensures ok == old(CheckDownloadToken(orderId, rawToken, now))
      ensures ok <==> Known(old(Value()), orderId)
                      && var g := OrderOf(old(Value()), orderId).grant;
                         g.Some? && g.value.expiresAt != 0 && now <= g.value.expiresAt && g.value.token == sha256(rawToken)
      ensures !ok ==> events == old(events)
      ensures ok ==> events == old(events) + [DownloadRedeemed(later, orderId, sha256(rawToken))]
      ensures ok ==> forall token, t :: !CheckDownloadToken(orderId, token, t)
    {
      hide IsLog, Replay, Find;
      if !CheckDownloadToken(orderId, rawToken, now) {
        return false;
      }
      var order := orders[Find(orders, orderId)];
      ghost var before := Value();
      SetOrder(order.(grant := None));
      PutFound(before.orders, order.(grant := None), orderId);
      Commit(before, DownloadRedeemed(later, orderId, order.grant.value.token), now);
      return true;
    }

    method ExpireAt(k: nat, now: int)
      requires Valid(now) && k < |orders| && IdsDistinct(Value())
      requires orders[k].status.AwaitingPayment? && now > orders[k].expiresAt
      modifies this
      ensures Valid(now) && used == old(used)
      ensures orders == old(orders)[k := MaybeExpired(old(orders)[k], now)]
      ensures events == old(events) + [OrderExpired(now, old(orders)[k].orderId)]
    {
      hide IsLog, Replay, Find;
      var o := orders[k];
      ghost var before := Value();
      FindIs(orders, o.orderId, k);
      orders := orders[k := o.(status := Expired)];
      Commit(before, OrderExpired(now, o.orderId), now);
    }

    /** Every order past its deadline and still awaiting payment is marked, in insertion order. */
    method ExpireStale(now: int) returns (n: nat)
      requires Valid(now)
      modifies this
      ensures Valid(now) && |orders| == |old(orders)| && used == old(used)
      ensures forall k :: 0 <= k < |orders| ==>
        orders[k] == if old(orders)[k].status.AwaitingPayment? && old(orders)[k].expiresAt < now
                     then old(orders)[k].(status := Expired) else old(orders)[k]
      ensures |events| == |old(events)| + n && old(events) <= events
      ensures forall j :: |old(events)| <= j < |events| ==> events[j].OrderExpired? && events[j].ts == now
    {
      hide IsLog, Replay, Find;
      n := 0;
      InvariantOfLog(cfg, events, readings, now);
      for k := 0 to |orders|
        invariant Valid(now) && |orders| == |old(orders)| && used == old(used) && IdsDistinct(Value())
        invariant forall i :: 0 <= i < k ==> orders[i] == MaybeExpired(old(orders)[i], now)
        invariant forall i :: k <= i < |orders| ==> orders[i] == old(orders)[i]
        invariant |events| == |old(events)| + n && old(events) <= events
        invariant forall j :: |old(events)| <= j < |events| ==> events[j].OrderExpired? && events[j].ts == now
      {
        if orders[k].status.AwaitingPayment? && now > orders[k].expiresAt {
          ExpireAt(k, now);
          n := n + 1;
        }
      }
    }

    /** Replays one event onto the fields, as fromEvents does for any log. */
    method ApplyReplay(e: Event) returns (error: Option<OrderError>)
      modifies this
      ensures error.None? ==> Apply(old(Value()), e) == Ok(Value()) && events == old(events) + [e]
      ensures error.Some? ==> Apply(old(Value()), e) == Err(error.value)
    {
      match e {
        case OrderCreated(_, order) =>
          SetOrder(order);
        case PaymentObserved(_, id, payment) =>
          var i := Find(orders, id);
          if i == |orders| {
            return Some(UnknownOrder);
          }
          SetOrder(orders[i].(status := Paid, payment := Some(payment)));
          used := used + {payment.txSignature};
        case DownloadRedeemed(_, id, _) =>
          var i := Find(orders, id);
          if i < |orders| {
            SetOrder(orders[i].(grant := None));
          }
        case OrderFulfilled(_, id, grant) =>
          var i := Find(orders, id);
          if i == |orders| {
            return Some(UnknownOrder);
          }
          SetOrder(orders[i].(status := Fulfilled, grant := Some(grant)));
        case OrderExpired(_, id) =>
          var i := Find(orders, id);
          if i < |orders| {
            SetOrder(orders[i].(status := Expired));
          }
        case RefundOwed(_, id, txSignature, refund) =>
          var i := Find(orders, id);
          if i < |orders| {
            if refund.Some? {
              SetOrder(orders[i].(status := RefundDue, payment := refund));
            } else {
              SetOrder(orders[i].(status := RefundDue));
            }
          }
          if txSignature.Some? {
            used := used + {txSignature.value};
          }
      }
      events := events + [e];
      return None;
    }

    /**
     * Rebuilding succeeds exactly when the log replays, and gives the replayed state and the same
     * log. For a log a ledger wrote it always succeeds, and the rebuilt ledger is that ledger.
     */
    static method FromEvents(cfg: CommerceConfig, sha256: string -> Id, log: seq<Event>, ghost readings: seq<int>)
      returns (r: Result<Ledger, OrderError>)
      ensures r.Ok? <==> Replay(log).Ok?
      ensures r.Err? ==> Replay(log) == Err(r.error)
      ensures r.Ok? ==> fresh(r.value) && r.value.cfg == cfg && r.value.sha256 == sha256
      ensures r.Ok? ==> r.value.events == log && Replay(log) == Ok(r.value.Value())
      ensures IsLog(cfg, log, readings) ==>
                r.Ok? && forall now :: (log != [] ==> LastRead(log, readings) <= now) ==> r.value.Valid(now)
    {
      var ledger := new Ledger(cfg, sha256);
      for k := 0 to |log|
        invariant fresh(ledger) && ledger.events == log[..k] && Replay(log[..k]) == Ok(ledger.Value())
      {
        ReplayNext(log, k);
        var error := ledger.ApplyReplay(log[k]);
        if error.Some? {
          ReplayStops(log, k + 1);
          if IsLog(cfg, log, readings) {
            LogReplays(cfg, log, readings, k + 1);
            assert false;
          }
          return Err(error.value);
        }
        assert log[..k] + [log[k]] == log[..k + 1];
      }
      assert log[..|log|] == log;
      ledger.readings := readings;
      return Ok(ledger);
    }
  }

  lemma ReplayNext(log: seq<Event>, k: nat)
    requires k < |log| && Replay(log[..k]).Ok?
    ensures Replay(log[..k + 1]) == Apply(Replay(log[..k]).value, log[k])
  {
    assert log[..k + 1][..k] == log[..k];
  }

  /** A replay that has failed stays failed. */
  lemma {:induction false} ReplayStops(log: seq<Event>, k: nat)
    requires k <= |log| && Replay(log[..k]).Err?
    ensures Replay(log) == Replay(log[..k])
    decreases |log| - k
  {
    if k == |log| {
      assert log[..k] == log;
    } else {
      assert log[..k + 1][..k] == log[..k];
      ReplayStops(log, k + 1);
    }
  }
}
