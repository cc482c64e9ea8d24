/** Which service calls a pass makes, stated without the pass's state machine:
    per order, one Send for each delivered item in item order with the order's
    id, then one Update with the order itself; orders in fetched order. The
    lemmas connect this reference to Processor.Pass. */
module CallSpec {
  import opened JsonTokens
  import opened Items
  import opened Trace
  import opened Processor

  /** One Send per delivered object item, in item order. */
  function DeliveredSends(orderId: Json, items: seq<Json>): seq<Event>
    decreases |items|
  {
    if items == [] then []
    else
      (if items[0].JObject? && IsItemDelivered(items[0].fields) then [Send(orderId, items[0].fields)] else [])
      + DeliveredSends(orderId, items[1..])
  }

  /** The Sends one order is due: none without an item array, and none without
      an OrderId, whose evaluation throws before each Send. */
  function SendsDue(order: Obj): seq<Event>
  {
    if OrderIdKey in order && HasItemArray(order) then DeliveredSends(order[OrderIdKey], ItemsOf(order)) else []
  }

  /** The calls one order is due: its Sends, then its Update. */
  function OrderCalls(order: Obj): seq<Event>
  {
    SendsDue(order) + [Update(order)]
  }

  function ExpectedCalls(orders: seq<Obj>): seq<Event>
    decreases |orders|
  {
    if orders == [] then [] else OrderCalls(orders[0]) + ExpectedCalls(orders[1..])
  }

  /** The orders handed to Update, in call order. */
  function Updated(calls: seq<Event>): seq<Obj>
    decreases |calls|
  {
    if calls == [] then []
    else (if calls[0].Update? then [calls[0].order] else []) + Updated(calls[1..])
  }

  /** Every order is well formed and every Update the pass makes succeeds
      (the i-th Update answers with the i-th scripted outcome). */
  predicate PassCompletes(orders: seq<Obj>, updates: seq<Outcome>)
    decreases |orders|
  {
    orders == [] || (WellFormed(orders[0]) && Next(updates).Ok? && PassCompletes(orders[1..], Rest(updates)))
  }

  lemma OutcomeAtRest(updates: seq<Outcome>, i: nat)
    ensures OutcomeAt(Rest(updates), i) == OutcomeAt(updates, i + 1)
    ensures OutcomeAt(updates, 0) == Next(updates)
  {
  }

  /** PassCompletes, order by order. */
  lemma {:induction false} PassCompletesMeaning(orders: seq<Obj>, updates: seq<Outcome>)
    ensures PassCompletes(orders, updates) <==>
              forall i :: 0 <= i < |orders| ==> WellFormed(orders[i]) && OutcomeAt(updates, i).Ok?
    decreases |orders|
  {
    if orders != [] {
      PassCompletesMeaning(orders[1..], Rest(updates));
      OutcomeAtRest(updates, 0);
      forall i | 1 <= i < |orders|
        ensures orders[1..][i - 1] == orders[i]
        ensures OutcomeAt(Rest(updates), i - 1) == OutcomeAt(updates, i)
      {
        OutcomeAtRest(updates, i - 1);
      }
    }
  }

  // ---------------------------------------------------------------------
  // The reference itself

  lemma DeliveredSendsMembersStep(items: seq<Json>, item: Obj)
    requires items != []
    ensures (exists j :: 0 <= j < |items| && items[j] == JObject(item)) <==>
              items[0] == JObject(item) || exists j :: 0 <= j < |items[1..]| && items[1..][j] == JObject(item)
  {
    if exists j :: 1 <= j < |items| && items[j] == JObject(item) {
      var j :| 1 <= j < |items| && items[j] == JObject(item);
      assert items[1..][j - 1] == items[j];
    }
    if exists j :: 0 <= j < |items[1..]| && items[1..][j] == JObject(item) {
      var j :| 0 <= j < |items[1..]| && items[1..][j] == JObject(item);
      assert items[j + 1] == items[1..][j];
    }
  }

  /** A Send is due exactly for a delivered item of the order, with the order's id. */
  lemma {:induction false} DeliveredSendsMembers(orderId: Json, items: seq<Json>, e: Event)
    ensures e in DeliveredSends(orderId, items) <==>
              e.Send? && e.orderId == orderId && IsItemDelivered(e.item)
              && exists j :: 0 <= j < |items| && items[j] == JObject(e.item)
    decreases |items|
  {
    if items != [] {
      DeliveredSendsMembers(orderId, items[1..], e);
      if e.Send? {
        DeliveredSendsMembersStep(items, e.item);
      }
    }
  }

  lemma {:induction false} UpdatedAppend(a: seq<Event>, b: seq<Event>)
    ensures Updated(a + b) == Updated(a) + Updated(b)
    decreases |a|
  {
    if a == [] {
      assert a + b == b;
    } else {
      var head := if a[0].Update? then [a[0].order] else [];
      assert (a + b)[0] == a[0];
      assert (a + b)[1..] == a[1..] + b;
      assert Updated(a + b) == head + Updated(a[1..] + b);
      UpdatedAppend(a[1..], b);
      assert Updated(a) == head + Updated(a[1..]);
    }
  }

  lemma {:induction false} DeliveredSendsUpdateNothing(orderId: Json, items: seq<Json>)
    ensures Updated(DeliveredSends(orderId, items)) == []
    decreases |items|
  {
    if items != [] {
      var head := if items[0].JObject? && IsItemDelivered(items[0].fields) then [Send(orderId, items[0].fields)] else [];
      DeliveredSendsUpdateNothing(orderId, items[1..]);
      UpdatedAppend(head, DeliveredSends(orderId, items[1..]));
    }
  }

  /** Update is due once per order, in fetched order, with the order object itself. */
  lemma {:induction false} UpdatedIsOrders(orders: seq<Obj>)
    ensures Updated(ExpectedCalls(orders)) == orders
    decreases |orders|
  {
    if orders != [] {
      var o := orders[0];
      var rest := ExpectedCalls(orders[1..]);
      assert Updated(SendsDue(o)) == [] by {
        if OrderIdKey in o && HasItemArray(o) {
          DeliveredSendsUpdateNothing(o[OrderIdKey], ItemsOf(o));
        }
      }
      assert Updated(OrderCalls(o)) == [o] by {
        UpdatedAppend(SendsDue(o), [Update(o)]);
        assert Updated([Update(o)]) == [o];
      }
      assert Updated(ExpectedCalls(orders)) == [o] + Updated(rest) by {
        UpdatedAppend(OrderCalls(o), rest);
      }
      UpdatedIsOrders(orders[1..]);
      assert orders == [o] + orders[1..];
    }
  }

  // ---------------------------------------------------------------------
  // The pass against the reference

  /** The item loop's calls are a prefix of the Sends due, and all of them when
      the loop runs to the end. */
  lemma {:induction false} ItemsCalls(orderId: Option<Json>, items: seq<Json>, sends: seq<Outcome>)
    ensures var due := if orderId.Some? then DeliveredSends(orderId.value, items) else [];
      var run := ProcessItems(orderId, items, sends);
      && Calls(run.events) <= due
      && (run.complete ==> Calls(run.events) == due)
    decreases |items|
  {
    if items != [] && items[0].JObject? {
      var step := NotifyItem(orderId, items[0].fields, sends);
      ItemsCalls(orderId, items[1..], step.sends);
      var rest := ProcessItems(orderId, items[1..], step.sends);
      CallsAppend(step.events, rest.events);
      var due := if orderId.Some? then DeliveredSends(orderId.value, items[1..]) else [];
      PrefixConcat(Calls(step.events), Calls(rest.events), due);
    }
  }

  /** The item loop of an order with an item array, and what it calls. */
  lemma OrderItemsCalls(order: Obj, sends: seq<Outcome>, updates: seq<Outcome>)
    requires HasItemArray(order)
    ensures var run := ProcessItems(Lookup(order, OrderIdKey), ItemsOf(order), sends);
      && Calls(run.events) <= SendsDue(order)
      && (run.complete <==> WellFormed(order))
      && (run.complete ==> Calls(run.events) == SendsDue(order))
      && Calls([Info(OrderProcessing)] + run.events) == Calls(run.events)
  {
    var orderId := Lookup(order, OrderIdKey);
    var run := ProcessItems(orderId, ItemsOf(order), sends);
    ItemsCalls(orderId, ItemsOf(order), sends);
    NoCallsInLogs([Info(OrderProcessing)]);
    CallsAppend([Info(OrderProcessing)], run.events);
  }

  /** One order's calls: a prefix of what it is due, all of it when it is well
      formed, none when it has no item array. */
  lemma OrderCallsOf(order: Obj, sends: seq<Outcome>, updates: seq<Outcome>)
    ensures var run := ProcessOrder(order, sends, updates);
      && Calls(run.events) <= OrderCalls(order)
      && (WellFormed(order) ==> Calls(run.events) == OrderCalls(order))
      && (!HasItemArray(order) ==> Calls(run.events) == [])
  {
    if HasItemArray(order) {
      if WellFormed(order) {
        OrderCallsWellFormed(order, sends, updates);
      } else {
        OrderCallsStopped(order, sends, updates);
      }
    } else {
      NoCallsInLogs([Info(OrderProcessing)]);
    }
  }

  lemma OrderCallsWellFormed(order: Obj, sends: seq<Outcome>, updates: seq<Outcome>)
    requires WellFormed(order)
    ensures Calls(ProcessOrder(order, sends, updates).events) == OrderCalls(order)
  {
    var start := [Info(OrderProcessing)];
    var run := ProcessItems(Lookup(order, OrderIdKey), ItemsOf(order), sends);
    OrderItemsCalls(order, sends, updates);
    CallsAppend(start + run.events, [Update(order)]);
  }

  lemma OrderCallsStopped(order: Obj, sends: seq<Outcome>, updates: seq<Outcome>)
    requires HasItemArray(order) && !WellFormed(order)
    ensures Calls(ProcessOrder(order, sends, updates).events) <= OrderCalls(order)
  {
    var run := ProcessItems(Lookup(order, OrderIdKey), ItemsOf(order), sends);
    OrderItemsCalls(order, sends, updates);
    PrefixAppend(Calls(run.events), SendsDue(order), [Update(order)]);
  }

  /** The order loop runs to the end exactly when every order is well formed
      and every update succeeds, whatever the Send outcomes. */
  lemma {:induction false} OrdersComplete(orders: seq<Obj>, sends: seq<Outcome>, updates: seq<Outcome>)
    ensures ProcessOrders(orders, sends, updates).complete <==> PassCompletes(orders, updates)
    decreases |orders|
  {
    if orders != [] {
      var o := ProcessOrder(orders[0], sends, updates);
      if o.complete {
        OrdersComplete(orders[1..], o.sends, o.updates);
      }
    }
  }

  /** The order loop's calls are a prefix of the reference, and all of it when
      the loop runs to the end. */
  lemma {:induction false} OrdersCalls(orders: seq<Obj>, sends: seq<Outcome>, updates: seq<Outcome>)
    ensures var run := ProcessOrders(orders, sends, updates);
      && Calls(run.events) <= ExpectedCalls(orders)
      && (run.complete ==> Calls(run.events) == ExpectedCalls(orders))
    decreases |orders|
  {
    if orders != [] {
      var o := ProcessOrder(orders[0], sends, updates);
      var due := OrderCalls(orders[0]);
      OrderCallsOf(orders[0], sends, updates);
      assert ExpectedCalls(orders) == due + ExpectedCalls(orders[1..]);
      if o.complete {
        OrdersCalls(orders[1..], o.sends, o.updates);
        var rest := ProcessOrders(orders[1..], o.sends, o.updates);
        CallsAppend(o.events, rest.events);
        PrefixConcat(due, Calls(rest.events), ExpectedCalls(orders[1..]));
      } else {
        PrefixAppend(Calls(o.events), due, ExpectedCalls(orders[1..]));
      }
    }
  }

  /** The calls of a whole pass: a prefix of the reference always, and exactly
      the reference when every order is well formed and every update succeeds,
      whatever the Send outcomes. A failed fetch makes no call. */
  lemma PassCalls(fetch: FetchOutcome, sends: seq<Outcome>, updates: seq<Outcome>)
    ensures fetch.FetchFailed? ==> Calls(Pass(fetch, sends, updates)) == []
    ensures fetch.Fetched? ==> Calls(Pass(fetch, sends, updates)) <= ExpectedCalls(fetch.orders)
    ensures fetch.Fetched? && PassCompletes(fetch.orders, updates) ==>
              Calls(Pass(fetch, sends, updates)) == ExpectedCalls(fetch.orders)
  {
    var t := Pass(fetch, sends, updates);
    match fetch
    case FetchFailed =>
      NoCallsInLogs(t);
    case Fetched(orders) =>
      OrdersCalls(orders, sends, updates);
      OrdersComplete(orders, sends, updates);
      PassCallsOfOrders(orders, sends, updates);
  }

  /** Log entries add no calls: a pass over fetched orders calls what its
      order loop calls. */
  lemma PassCallsOfOrders(orders: seq<Obj>, sends: seq<Outcome>, updates: seq<Outcome>)
    ensures Calls(Pass(Fetched(orders), sends, updates)) == Calls(ProcessOrders(orders, sends, updates).events)
  {
    var run := ProcessOrders(orders, sends, updates);
    var tail := (if run.complete then [] else [Error(PassFailed)]) + [Info(PassCompleted)];
    PassOfFetched(orders, sends, updates);
    NoCallsInLogs([Info(PassStarting)]);
    NoCallsInLogs(tail);
    CallsAppend([Info(PassStarting)], run.events);
    CallsAppend([Info(PassStarting)] + run.events, tail);
  }

  /** A pass that runs to the end updates every fetched order exactly once, in
      fetched order, with the fetched order object. */
  lemma UpdatesOncePerOrder(orders: seq<Obj>, sends: seq<Outcome>, updates: seq<Outcome>)
    requires PassCompletes(orders, updates)
    ensures Updated(Calls(Pass(Fetched(orders), sends, updates))) == orders
  {
    PassCalls(Fetched(orders), sends, updates);
    UpdatedIsOrders(orders);
  }

  lemma {:induction false} ItemsNoPassFailed(orderId: Option<Json>, items: seq<Json>, sends: seq<Outcome>)
    ensures Count(ProcessItems(orderId, items, sends).events, Error(PassFailed)) == 0
    decreases |items|
  {
    if items != [] && items[0].JObject? {
      var step := NotifyItem(orderId, items[0].fields, sends);
      ItemsNoPassFailed(orderId, items[1..], step.sends);
      CountAppend(step.events, ProcessItems(orderId, items[1..], step.sends).events, Error(PassFailed));
    }
  }

  lemma OrderNoPassFailed(order: Obj, sends: seq<Outcome>, updates: seq<Outcome>)
    ensures Count(ProcessOrder(order, sends, updates).events, Error(PassFailed)) == 0
  {
    var start := [Info(OrderProcessing)];
    if HasItemArray(order) {
      var run := ProcessItems(Lookup(order, OrderIdKey), ItemsOf(order), sends);
      ItemsNoPassFailed(Lookup(order, OrderIdKey), ItemsOf(order), sends);
      CountAppend(start, run.events, Error(PassFailed));
      CountAppend(start + run.events, [Update(order)], Error(PassFailed));
    }
  }

  lemma {:induction false} OrdersNoPassFailed(orders: seq<Obj>, sends: seq<Outcome>, updates: seq<Outcome>)
    ensures Count(ProcessOrders(orders, sends, updates).events, Error(PassFailed)) == 0
    decreases |orders|
  {
    if orders != [] {
      var o := ProcessOrder(orders[0], sends, updates);
      OrderNoPassFailed(orders[0], sends, updates);
      if o.complete {
        OrdersNoPassFailed(orders[1..], o.sends, o.updates);
        CountAppend(o.events, ProcessOrders(orders[1..], o.sends, o.updates).events, Error(PassFailed));
      }
    }
  }

  /** The pass logs its catch-all error exactly once when the fetch fails or the
      pass ends early, and never otherwise. */
  lemma PassFailedLoggedOnce(fetch: FetchOutcome, sends: seq<Outcome>, updates: seq<Outcome>)
    ensures Count(Pass(fetch, sends, updates), Error(PassFailed)) ==
              if fetch.FetchFailed? || !PassCompletes(fetch.orders, updates) then 1 else 0
  {
    var t := Pass(fetch, sends, updates);
    var e := Error(PassFailed);
    match fetch
    case FetchFailed =>
      assert t == [Info(PassStarting)] + [e] + [Info(PassCompleted)];
      CountAppend([Info(PassStarting)], [e], e);
      CountAppend([Info(PassStarting)] + [e], [Info(PassCompleted)], e);
    case Fetched(orders) =>
      var run := ProcessOrders(orders, sends, updates);
      OrdersComplete(orders, sends, updates);
      OrdersNoPassFailed(orders, sends, updates);
      var tail := (if run.complete then [] else [e]) + [Info(PassCompleted)];
      PassOfFetched(orders, sends, updates);
      CountAppend([Info(PassStarting)], run.events, e);
      CountAppend([Info(PassStarting)] + run.events, tail, e);
      CountAppend(if run.complete then [] else [e], [Info(PassCompleted)], e);
  }
}
