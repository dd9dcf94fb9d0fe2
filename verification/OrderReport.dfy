/**
 * The reporting job's own fold of the order log, written independently of the ledger, and the proof
 * that it gives every order the status the ledger gives it.
 */
module OrderReport {
  import opened Outcomes
  import opened OrderLog
  import opened OrderSafety

  /** What the job keeps of an order; an unknown id starts with no status, no amount, no product. */
  datatype Entry = Entry(id: Id, status: Option<OrderStatus>, amount: int, product: Option<Product>)

  datatype Action = RefundOwedTo(id: Id, amount: int, product: Option<Product>)
                  | Deliver(id: Id, amount: int, product: Option<Product>)

  function EventId(e: Event): Id { if e.OrderCreated? then e.order.orderId else e.orderId }

  function FindEntry(entries: seq<Entry>, id: Id): (i: nat)
    ensures i <= |entries|
    ensures i < |entries| ==> entries[i].id == id
    ensures forall k :: 0 <= k < i ==> entries[k].id != id
  {
    if entries == [] then 0 else if entries[0].id == id then 0 else 1 + FindEntry(entries[1..], id)
  }

  function PutEntry(entries: seq<Entry>, entry: Entry): seq<Entry> {
    var i := FindEntry(entries, entry.id);
    if i < |entries| then entries[i := entry] else entries + [entry]
  }

  /** An event with an empty id is skipped; a redemption, or any other kind, changes nothing. */
  function FoldEvent(entries: seq<Entry>, e: Event): seq<Entry> {
    var id := EventId(e);
    if id.text == "" then entries
    else
      var i := FindEntry(entries, id);
      var prev := if i < |entries| then entries[i] else Entry(id, None, 0, None);
      match e
      case OrderCreated(_, order) => PutEntry(entries, Entry(id, Some(AwaitingPayment), order.amount, Some(order.product)))
      case PaymentObserved(_, _, _) => PutEntry(entries, prev.(status := Some(Paid)))
      case OrderFulfilled(_, _, _) => PutEntry(entries, prev.(status := Some(Fulfilled)))
      case OrderExpired(_, _) => PutEntry(entries, prev.(status := Some(Expired)))
      case RefundOwed(_, _, _, _) => PutEntry(entries, prev.(status := Some(RefundDue)))
      case DownloadRedeemed(_, _, _) => entries
  }

  function Fold(log: seq<Event>): seq<Entry> {
    if log == [] then [] else FoldEvent(Fold(log[..|log| - 1]), log[|log| - 1])
  }

  function ActionsOf(entries: seq<Entry>): seq<Action> {
    if entries == [] then []
    else
      var rest, x := ActionsOf(entries[..|entries| - 1]), entries[|entries| - 1];
      if x.status == Some(RefundDue) then rest + [RefundOwedTo(x.id, x.amount, x.product)]
      else if x.status == Some(Paid) then rest + [Deliver(x.id, x.amount, x.product)]
      else rest
  }

  method SummariseOrdersNeedingAttention(log: seq<Event>) returns (out: seq<Action>)
    ensures out == ActionsOf(Fold(log))
  {
    var state: seq<Entry> := [];
    for n := 0 to |log|
      invariant state == Fold(log[..n])
    {
      assert log[..n + 1][..n] == log[..n];
      var e := log[n];
      var id := EventId(e);
      if id.text == "" {
        continue;
      }
      var i := FindEntry(state, id);
      var prev := if i < |state| then state[i] else Entry(id, None, 0, None);
      match e {
        case OrderCreated(_, order) =>
          state := PutEntry(state, Entry(id, Some(AwaitingPayment), order.amount, Some(order.product)));
        case PaymentObserved(_, _, _) => state := PutEntry(state, prev.(status := Some(Paid)));
        case OrderFulfilled(_, _, _) => state := PutEntry(state, prev.(status := Some(Fulfilled)));
        case OrderExpired(_, _) => state := PutEntry(state, prev.(status := Some(Expired)));
        case RefundOwed(_, _, _, _) => state := PutEntry(state, prev.(status := Some(RefundDue)));
        case DownloadRedeemed(_, _, _) =>
      }
    }
    assert log[..|log|] == log;
    out := [];
    for n := 0 to |state|
      invariant out == ActionsOf(state[..n])
    {
      assert state[..n + 1][..n] == state[..n];
      var o := state[n];
      if o.status == Some(RefundDue) {
        out := out + [RefundOwedTo(o.id, o.amount, o.product)];
      } else if o.status == Some(Paid) {
        out := out + [Deliver(o.id, o.amount, o.product)];
      }
    }
    assert state[..|state|] == state;
  }

  // -------------------------------------------------------------------------
  // The fold against the ledger
  // -------------------------------------------------------------------------

  function EntryOf(o: Order): Entry { Entry(o.orderId, Some(o.status), o.amount, Some(o.product)) }

  /** The ledger's orders as the job would list them, without an order whose id is empty. */
  function EntriesOf(orders: seq<Order>): seq<Entry> {
    if orders == [] then []
    else if orders[0].orderId.text == "" then EntriesOf(orders[1..])
    else [EntryOf(orders[0])] + EntriesOf(orders[1..])
  }

  lemma {:induction false} EntryFound(orders: seq<Order>, id: Id)
    requires id.text != ""
    ensures Find(orders, id) < |orders| <==> FindEntry(EntriesOf(orders), id) < |EntriesOf(orders)|
    ensures Find(orders, id) < |orders| ==>
              EntriesOf(orders)[FindEntry(EntriesOf(orders), id)] == EntryOf(orders[Find(orders, id)])
  {
    if orders != [] {
      var entries := EntriesOf(orders);
      EntryFound(orders[1..], id);
      if orders[0].orderId.text != "" {
        assert entries[1..] == EntriesOf(orders[1..]);
      }
    }
  }

  lemma {:induction false} EntryAppended(orders: seq<Order>, o: Order)
    ensures EntriesOf(orders + [o]) == EntriesOf(orders) + if o.orderId.text == "" then [] else [EntryOf(o)]
  {
    if orders == [] {
      assert orders + [o] == [o];
      assert EntriesOf([o][1..]) == [];
    } else {
      assert (orders + [o])[1..] == orders[1..] + [o];
      EntryAppended(orders[1..], o);
    }
  }

  lemma PutEntrySkips(entries: seq<Entry>, x: Entry)
    requires entries != [] && entries[0].id != x.id
    ensures PutEntry(entries, x) == [entries[0]] + PutEntry(entries[1..], x)
  {
    var i := FindEntry(entries, x.id);
    assert i == 1 + FindEntry(entries[1..], x.id);
  }

  lemma {:induction false} EntryReplaced(orders: seq<Order>, i: nat, o: Order)
    requires i == Find(orders, o.orderId) < |orders|
    ensures EntriesOf(orders[i := o])
         == if o.orderId.text == "" then EntriesOf(orders) else PutEntry(EntriesOf(orders), EntryOf(o))
  {
    var entries, rest := EntriesOf(orders), EntriesOf(orders[1..]);
    if i == 0 {
      assert orders[i := o][1..] == orders[1..];
      if o.orderId.text != "" {
        assert PutEntry(entries, EntryOf(o)) == [EntryOf(o)] + rest;
      }
    } else {
      assert orders[i := o][1..] == orders[1..][i - 1 := o];
      EntryReplaced(orders[1..], i - 1, o);
      if orders[0].orderId.text != "" && o.orderId.text != "" {
        assert entries[1..] == rest;
        PutEntrySkips(entries, EntryOf(o));
      }
    }
  }

  /** Setting an order in the ledger's map is setting its entry in the job's. */
  lemma PutMatches(orders: seq<Order>, o: Order)
    ensures EntriesOf(Put(orders, o))
         == if o.orderId.text == "" then EntriesOf(orders) else PutEntry(EntriesOf(orders), EntryOf(o))
  {
    if Find(orders, o.orderId) < |orders| {
      EntryReplaced(orders, Find(orders, o.orderId), o);
    } else {
      EntryAppended(orders, o);
      if o.orderId.text != "" {
        EntryFound(orders, o.orderId);
      }
    }
  }

  /** Replacing an order by one the job cannot tell apart leaves its list as it is. */
  lemma PutSame(orders: seq<Order>, o: Order)
    requires Find(orders, o.orderId) < |orders| && EntryOf(orders[Find(orders, o.orderId)]) == EntryOf(o)
    ensures EntriesOf(Put(orders, o)) == EntriesOf(orders)
  {
    PutMatches(orders, o);
    if o.orderId.text != "" {
      EntryFound(orders, o.orderId);
    }
  }

  lemma StepMatches(cfg: CommerceConfig, s: State, e: Event, read: int)
    requires Allowed(cfg, s, e, read) && Apply(s, e).Ok?
    ensures EntriesOf(Apply(s, e).value.orders) == FoldEvent(EntriesOf(s.orders), e)
  {
    hide Put, PutEntry, Find, FindEntry, EntriesOf;
    if EventId(e).text != "" {
      EntryFound(s.orders, EventId(e));
    }
    match e
    case OrderCreated(_, o) => PutMatches(s.orders, o);
    case PaymentObserved(_, id, p) => PutMatches(s.orders, OrderOf(s, id).(status := Paid, payment := Some(p)));
    case OrderFulfilled(_, id, g) => PutMatches(s.orders, OrderOf(s, id).(status := Fulfilled, grant := Some(g)));
    case OrderExpired(_, id) => PutMatches(s.orders, OrderOf(s, id).(status := Expired));
    case RefundOwed(_, id, _, r) => PutMatches(s.orders, OrderOf(s, id).(status := RefundDue, payment := r));
    case DownloadRedeemed(_, id, _) => PutSame(s.orders, OrderOf(s, id).(grant := None));
  }

  /**
   * On every log the ledger wrote, the job's fold lists the ledger's own orders, in the same order,
   * with the same status, amount and product: only an order with an empty id is missing.
   */
  lemma {:induction false} ReportAgrees(cfg: CommerceConfig, log: seq<Event>, readings: seq<int>)
    requires IsLog(cfg, log, readings)
    ensures Replay(log).Ok? && Fold(log) == EntriesOf(Replay(log).value.orders)
  {
    LogReplays(cfg, log, readings, |log|);
    assert log[..|log|] == log;
    if log != [] {
      var n := |log| - 1;
      ReportAgrees(cfg, log[..n], readings[..n]);
      StepMatches(cfg, Replay(log[..n]).value, log[n], readings[n]);
    }
  }

  lemma {:induction false} ActionListed(entries: seq<Entry>, i: nat)
    requires i < |entries|
    ensures entries[i].status == Some(RefundDue) ==>
              RefundOwedTo(entries[i].id, entries[i].amount, entries[i].product) in ActionsOf(entries)
    ensures entries[i].status == Some(Paid) ==>
              Deliver(entries[i].id, entries[i].amount, entries[i].product) in ActionsOf(entries)
  {
    if i < |entries| - 1 {
      assert entries[..|entries| - 1][i] == entries[i];
      ActionListed(entries[..|entries| - 1], i);
    }
  }

  /**
   * Every refund due and every paid order is on the job's list, and so, in particular, whatever the ledger's
   * own list names: refunds worth paying, and paid pre-orders.
   */
  lemma NothingOverlooked(cfg: CommerceConfig, log: seq<Event>, readings: seq<int>, id: Id)
    requires IsLog(cfg, log, readings) && Replay(log).Ok? && id.text != ""
    requires Known(Replay(log).value, id)
    ensures var o := OrderOf(Replay(log).value, id);
            && (o.status.RefundDue? ==> RefundOwedTo(id, o.amount, Some(o.product)) in ActionsOf(Fold(log)))
            && (o.status.Paid? ==> Deliver(id, o.amount, Some(o.product)) in ActionsOf(Fold(log)))
  {
    var s := Replay(log).value;
    ReportAgrees(cfg, log, readings);
    EntryFound(s.orders, id);
    ActionListed(Fold(log), FindEntry(Fold(log), id));
  }

  lemma {:induction false} ActionFrom(entries: seq<Entry>, x: Action) returns (i: nat)
    requires x in ActionsOf(entries)
    ensures i < |entries|
    ensures var e := entries[i];
            || (e.status == Some(RefundDue) && x == RefundOwedTo(e.id, e.amount, e.product))
            || (e.status == Some(Paid) && x == Deliver(e.id, e.amount, e.product))
  {
    var n := |entries| - 1;
    if x in ActionsOf(entries[..n]) {
      i := ActionFrom(entries[..n], x);
    } else {
      i := n;
    }
  }

  lemma {:induction false} EntryFrom(orders: seq<Order>, i: nat) returns (k: nat)
    requires i < |EntriesOf(orders)|
    ensures k < |orders| && EntriesOf(orders)[i] == EntryOf(orders[k]) && orders[k].orderId.text != ""
  {
    if orders[0].orderId.text == "" {
      k := EntryFrom(orders[1..], i);
      k := k + 1;
    } else if i == 0 {
      k := 0;
    } else {
      assert EntriesOf(orders)[i] == EntriesOf(orders[1..])[i - 1];
      k := EntryFrom(orders[1..], i - 1);
      k := k + 1;
    }
  }

  /** What is on the job's list the ledger says too: a refund due, or a payment not yet fulfilled. */
  lemma NothingInvented(cfg: CommerceConfig, log: seq<Event>, readings: seq<int>, x: Action)
    requires IsLog(cfg, log, readings) && Replay(log).Ok? && x in ActionsOf(Fold(log))
    ensures x.id.text != "" && Known(Replay(log).value, x.id)
    ensures var o := OrderOf(Replay(log).value, x.id);
            && x.amount == o.amount && x.product == Some(o.product)
            && (if x.RefundOwedTo? then o.status == RefundDue else o.status == Paid)
  {
    var s := Replay(log).value;
    ReportAgrees(cfg, log, readings);
    var i := ActionFrom(Fold(log), x);
    var k := EntryFrom(s.orders, i);
    InvariantOfLog(cfg, log, readings, if log == [] then 0 else LastRead(log, readings));
    FindIs(s.orders, x.id, k);
  }
}
