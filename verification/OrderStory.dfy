/** Where every order record comes from, and what stands behind every event of a written log. */
module OrderStory {
  import opened Outcomes
  import opened OrderLog
  import opened OrderSafety

  // ---- What the log says ----

  /** The order was created by that event, to live for the time to live from then. */
  ghost predicate Creates(cfg: CommerceConfig, e: Event, o: Order) {
    && e.OrderCreated? && e.order.orderId == o.orderId && e.order.product == o.product && e.order.amount == o.amount
    && o.createdAt == e.ts && o.expiresAt == e.ts + cfg.orderTtl
  }

  /** That event credits the payment, in full and in time. */
  ghost predicate Pays(e: Event, o: Order) {
    && e.PaymentObserved? && e.orderId == o.orderId && o.payment == Some(e.payment)
    && e.payment.amount == o.amount && e.ts <= o.expiresAt
  }

  /** That event issues the grant, for the time to live from then. */
  ghost predicate Grants(cfg: CommerceConfig, e: Event, id: Id, g: Grant) {
    e.OrderFulfilled? && e.orderId == id && e.grant == g && g.expiresAt == e.ts + cfg.downloadTtl
  }

  ghost predicate Uses(e: Event, tx: Id) {
    (e.PaymentObserved? && e.payment.txSignature == tx) || (e.RefundOwed? && e.txSignature == Some(tx))
  }

  ghost predicate Created(cfg: CommerceConfig, log: seq<Event>, o: Order) {
    exists i :: 0 <= i < |log| && Creates(cfg, log[i], o)
  }

  ghost predicate PaidFor(log: seq<Event>, o: Order) { exists i :: 0 <= i < |log| && Pays(log[i], o) }

  ghost predicate Granted(cfg: CommerceConfig, log: seq<Event>, id: Id, g: Grant) {
    exists i :: 0 <= i < |log| && Grants(cfg, log[i], id, g)
  }

  ghost predicate UsedBy(log: seq<Event>, tx: Id) { exists i :: 0 <= i < |log| && Uses(log[i], tx) }

  // ---- What the records say ----

  ghost predicate OrderFrom(cfg: CommerceConfig, log: seq<Event>, o: Order) {
    && Created(cfg, log, o)
    && (o.status.Paid? || o.status.Fulfilled? ==> PaidFor(log, o))
    && (o.status.Fulfilled? ==> !o.product.PreOrder())
    && (o.grant.Some? ==> Granted(cfg, log, o.orderId, o.grant.value) && o.status.Fulfilled?)
  }

  ghost predicate Sourced(cfg: CommerceConfig, s: State, log: seq<Event>) {
    && (forall k :: 0 <= k < |s.orders| ==> OrderFrom(cfg, log, s.orders[k]))
    && forall tx :: tx in s.used <==> UsedBy(log, tx)
  }

  lemma OneMore(cfg: CommerceConfig, log: seq<Event>, e: Event)
    ensures forall o :: Created(cfg, log, o) || Creates(cfg, e, o) ==> Created(cfg, log + [e], o)
    ensures forall o :: PaidFor(log, o) || Pays(e, o) ==> PaidFor(log + [e], o)
    ensures forall id, g :: Granted(cfg, log, id, g) || Grants(cfg, e, id, g) ==> Granted(cfg, log + [e], id, g)
    ensures forall tx :: UsedBy(log + [e], tx) <==> UsedBy(log, tx) || Uses(e, tx)
  {
    var l := log + [e];
    assert l[|log|] == e && forall i :: 0 <= i < |log| ==> l[i] == log[i];
    forall o | Created(cfg, log, o) || Creates(cfg, e, o) ensures Created(cfg, l, o) {
      if i :| 0 <= i < |log| && Creates(cfg, log[i], o) { assert Creates(cfg, l[i], o); } else { assert Creates(cfg, l[|log|], o); }
    }
    forall o | PaidFor(log, o) || Pays(e, o) ensures PaidFor(l, o) {
      if i :| 0 <= i < |log| && Pays(log[i], o) { assert Pays(l[i], o); } else { assert Pays(l[|log|], o); }
    }
    forall id, g | Granted(cfg, log, id, g) || Grants(cfg, e, id, g) ensures Granted(cfg, l, id, g) {
      if i :| 0 <= i < |log| && Grants(cfg, log[i], id, g) { assert Grants(cfg, l[i], id, g); } else { assert Grants(cfg, l[|log|], id, g); }
    }
    forall tx ensures UsedBy(l, tx) <==> UsedBy(log, tx) || Uses(e, tx) {
      if i :| 0 <= i < |log| && Uses(log[i], tx) { assert Uses(l[i], tx); }
      if Uses(e, tx) { assert Uses(l[|log|], tx); }
    }
  }

  /** Renewed facts for the order that changed, the old ones for the rest. */
  lemma OrderPut(cfg: CommerceConfig, s: State, log: seq<Event>, e: Event, o: Order)
    requires forall k :: 0 <= k < |s.orders| ==> OrderFrom(cfg, log, s.orders[k])
    requires OrderFrom(cfg, log + [e], o)
    ensures forall k :: 0 <= k < |Put(s.orders, o)| ==> OrderFrom(cfg, log + [e], Put(s.orders, o)[k])
  {
    OneMore(cfg, log, e);
    hide Created, PaidFor, Granted, Find;
    forall k | 0 <= k < |Put(s.orders, o)| ensures OrderFrom(cfg, log + [e], Put(s.orders, o)[k]) {
      if Put(s.orders, o)[k] != o {
        assert OrderFrom(cfg, log, s.orders[k]);
      }
    }
  }

  /** What changes on an order leaves its origin alone. */
  lemma SameOrigin(cfg: CommerceConfig, log: seq<Event>, o: Order, o': Order)
    requires o' == o.(status := o'.status, payment := o'.payment, grant := o'.grant)
    ensures Created(cfg, log, o) ==> Created(cfg, log, o')
    ensures PaidFor(log, o) && o'.payment == o.payment ==> PaidFor(log, o')
  {
    if i :| 0 <= i < |log| && Creates(cfg, log[i], o) {
      assert Creates(cfg, log[i], o');
    }
    if i :| 0 <= i < |log| && Pays(log[i], o) {
      assert o'.payment == o.payment ==> Pays(log[i], o');
    }
  }

  lemma ChangedFrom(cfg: CommerceConfig, s: State, log: seq<Event>, e: Event, read: int)
    requires forall k :: 0 <= k < |s.orders| ==> OrderFrom(cfg, log, s.orders[k])
    requires AllPaidExactly(s) && Allowed(cfg, s, e, read)
    ensures e.OrderCreated? || Known(s, e.orderId)
    ensures OrderFrom(cfg, log + [e], Changed(s, e))
  {
    OneMore(cfg, log, e);
    hide Created, PaidFor, Granted, UsedBy, Find, AmountFree;
    if !e.OrderCreated? {
      var o := OrderOf(s, e.orderId);
      assert OrderFrom(cfg, log, o) && PaidExactly(o);
      SameOrigin(cfg, log, o, Changed(s, e));
    }
  }

  lemma SourcedStep(cfg: CommerceConfig, s: State, log: seq<Event>, e: Event, read: int)
    requires Sourced(cfg, s, log) && AllPaidExactly(s) && Allowed(cfg, s, e, read)
    ensures Apply(s, e).Ok? && Sourced(cfg, Apply(s, e).value, log + [e])
  {
    OneMore(cfg, log, e);
    Sources(cfg, s, log);
    ChangedFrom(cfg, s, log, e, read);
    hide Created, PaidFor, Granted, UsedBy, Find, Put, AmountFree, Sourced, OrderFrom;
    OrderPut(cfg, s, log, e, Changed(s, e));
    AllSourced(cfg, Apply(s, e).value, log + [e]);
  }

  /** The order an allowed event sets. */
  function Changed(s: State, e: Event): Order
    requires e.OrderCreated? || Known(s, e.orderId)
  {
    match e
    case OrderCreated(_, o) => o
    case PaymentObserved(_, id, p) => OrderOf(s, id).(status := Paid, payment := Some(p))
    case OrderFulfilled(_, id, g) => OrderOf(s, id).(status := Fulfilled, grant := Some(g))
    case OrderExpired(_, id) => OrderOf(s, id).(status := Expired)
    case DownloadRedeemed(_, id, _) => OrderOf(s, id).(grant := None)
    case RefundOwed(_, id, _, r) => OrderOf(s, id).(status := RefundDue, payment := r)
  }

  lemma Sources(cfg: CommerceConfig, s: State, log: seq<Event>)
    requires Sourced(cfg, s, log)
    ensures forall k :: 0 <= k < |s.orders| ==> OrderFrom(cfg, log, s.orders[k])
    ensures forall tx :: tx in s.used <==> UsedBy(log, tx)
  {
  }

  lemma AllSourced(cfg: CommerceConfig, s: State, log: seq<Event>)
    requires forall k :: 0 <= k < |s.orders| ==> OrderFrom(cfg, log, s.orders[k])
    requires forall tx :: tx in s.used <==> UsedBy(log, tx)
    ensures Sourced(cfg, s, log)
  {
  }

  /** In the state any written log leads to, every order is what the log tells of it. */
  lemma {:induction false} LogIsSourced(cfg: CommerceConfig, log: seq<Event>, readings: seq<int>)
    requires IsLog(cfg, log, readings)
    ensures Replay(log).Ok? && Sourced(cfg, Replay(log).value, log)
  {
    if log != [] {
      var n := |log| - 1;
      hide Sourced, Inv;
      LogIsSourced(cfg, log[..n], readings[..n]);
      InvariantOfLog(cfg, log, readings, LastRead(log, readings));
      InvariantOfLog(cfg, log[..n], readings[..n], if n > 0 then LastRead(log[..n], readings[..n]) else 0);
      PaidInvariant(Replay(log[..n]).value, if n > 0 then LastRead(log[..n], readings[..n]) else 0);
      SourcedStep(cfg, Replay(log[..n]).value, log[..n], log[n], readings[n]);
      assert log[..n] + [log[n]] == log;
    }
  }

  lemma PaidInvariant(s: State, now: int)
    requires Inv(s, now)
    ensures AllPaidExactly(s)
  {
  }

  // ---- What stands behind an event ----

  lemma Behind(cfg: CommerceConfig, log: seq<Event>, readings: seq<int>, k: nat) returns (s: State)
    requires IsLog(cfg, log, readings) && k < |log|
    ensures Replay(log[..k]) == Ok(s) && Sourced(cfg, s, log[..k]) && Allowed(cfg, s, log[k], readings[k])
    ensures forall i :: 0 <= i < k ==> log[..k][i] == log[i]
  {
    hide Sourced, Allowed;
    PrefixIsLog(cfg, log, readings, k);
    PrefixIsLog(cfg, log, readings, k + 1);
    LogIsSourced(cfg, log[..k], readings[..k]);
    s := Replay(log[..k]).value;
    assert log[..k + 1][..k] == log[..k] && readings[..k + 1][..k] == readings[..k];
    assert Allowed(cfg, s, log[..k + 1][k], readings[..k + 1][k]);
  }

  /** A payment is credited to an order created before, for exactly its amount, in time, and under a new signature. */
  lemma CreditedMeans(cfg: CommerceConfig, log: seq<Event>, readings: seq<int>, k: nat) returns (i: nat)
    requires IsLog(cfg, log, readings) && k < |log| && log[k].PaymentObserved?
    ensures i < k && log[i].OrderCreated? && log[i].order.orderId == log[k].orderId
    ensures log[k].payment.amount == log[i].order.amount && log[k].ts <= log[i].ts + cfg.orderTtl
    ensures forall j :: 0 <= j < k ==> !Uses(log[j], log[k].payment.txSignature)
  {
    hide IsLog, Replay, Find;
    var s := Behind(cfg, log, readings, k);
    var o := OrderOf(s, log[k].orderId);
    assert OrderFrom(cfg, log[..k], o);
    i :| 0 <= i < k && Creates(cfg, log[..k][i], o);
    Unused(log, k, log[k].payment.txSignature);
  }

  lemma Unused(log: seq<Event>, k: nat, tx: Id)
    requires k <= |log| && !UsedBy(log[..k], tx)
    ensures forall j :: 0 <= j < k ==> !Uses(log[j], tx)
  {
    forall j | 0 <= j < k ensures !Uses(log[j], tx) {
      assert !Uses(log[..k][j], tx);
    }
  }

  /** A refund is owed for a payment under a new signature that is of another amount or too late. */
  lemma RefundOwedMeans(cfg: CommerceConfig, log: seq<Event>, readings: seq<int>, k: nat) returns (i: nat)
    requires IsLog(cfg, log, readings) && k < |log| && log[k].RefundOwed?
    ensures i < k && log[i].OrderCreated? && log[i].order.orderId == log[k].orderId && log[k].refund.Some?
    ensures log[k].refund.value.amount != log[i].order.amount || log[i].ts + cfg.orderTtl < log[k].ts
    ensures log[k].txSignature == Some(log[k].refund.value.txSignature)
    ensures forall j :: 0 <= j < k ==> !Uses(log[j], log[k].refund.value.txSignature)
  {
    hide IsLog, Replay, Find;
    var s := Behind(cfg, log, readings, k);
    var o := OrderOf(s, log[k].orderId);
    assert OrderFrom(cfg, log[..k], o);
    i :| 0 <= i < k && Creates(cfg, log[..k][i], o);
    Unused(log, k, log[k].refund.value.txSignature);
  }

  /** An order is marked expired after its time. */
  lemma ExpiredMeans(cfg: CommerceConfig, log: seq<Event>, readings: seq<int>, k: nat) returns (i: nat)
    requires IsLog(cfg, log, readings) && k < |log| && log[k].OrderExpired?
    ensures i < k && log[i].OrderCreated? && log[i].order.orderId == log[k].orderId
    ensures log[i].ts + cfg.orderTtl < log[k].ts
  {
    hide IsLog, Replay, Find;
    var s := Behind(cfg, log, readings, k);
    var o := OrderOf(s, log[k].orderId);
    assert OrderFrom(cfg, log[..k], o);
    i :| 0 <= i < k && Creates(cfg, log[..k][i], o);
  }

  /** What is delivered is no pre-order, and its exact payment was credited in time. */
  lemma GrantedMeans(cfg: CommerceConfig, log: seq<Event>, readings: seq<int>, k: nat) returns (i: nat, j: nat)
    requires IsLog(cfg, log, readings) && k < |log| && log[k].OrderFulfilled?
    ensures i < k && log[i].OrderCreated? && log[i].order.orderId == log[k].orderId && !log[i].order.product.ArchivePreOrder?
    ensures j < k && log[j].PaymentObserved? && log[j].orderId == log[k].orderId
    ensures log[j].payment.amount == log[i].order.amount && log[j].ts <= log[i].ts + cfg.orderTtl
    ensures log[k].grant.expiresAt == log[k].ts + cfg.downloadTtl
  {
    hide IsLog, Replay, Find;
    var s := Behind(cfg, log, readings, k);
    var o := OrderOf(s, log[k].orderId);
    assert OrderFrom(cfg, log[..k], o);
    i :| 0 <= i < k && Creates(cfg, log[..k][i], o);
    j :| 0 <= j < k && Pays(log[..k][j], o);
  }

  /** A redemption uses the token of a grant issued before, while that grant lasts. */
  lemma RedeemedMeans(cfg: CommerceConfig, log: seq<Event>, readings: seq<int>, k: nat) returns (m: nat)
    requires IsLog(cfg, log, readings) && k < |log| && log[k].DownloadRedeemed?
    ensures m < k && log[m].OrderFulfilled? && log[m].orderId == log[k].orderId && log[m].grant.token == log[k].tokenHash
    ensures readings[k] <= log[m].ts + cfg.downloadTtl
  {
    hide IsLog, Replay, Find;
    var s := Behind(cfg, log, readings, k);
    var o := OrderOf(s, log[k].orderId);
    assert OrderFrom(cfg, log[..k], o);
    m :| 0 <= m < k && Grants(cfg, log[..k][m], o.orderId, o.grant.value);
  }
}
