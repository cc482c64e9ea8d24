/** Properties of a whole pass that tie it to its failure policy: which
    failures end the pass, that Send outcomes never change which calls are
    made, and that a pass where everything succeeds logs no error. */
module PassProperties {
  import opened JsonTokens
  import opened Items
  import opened Trace
  import opened Processor
  import opened CallSpec

  // ---------------------------------------------------------------------
  // A failed update or an order without an item array ends the pass

  /** The order at index i ends the pass by a missing item array or a failed
      Update: the orders before it go through, and its Items is not an array,
      or it is well formed and its Update fails. (An item array holding a
      token that is not an object also ends the pass; this predicate leaves
      that case out.) */
  predicate EndsAt(orders: seq<Obj>, updates: seq<Outcome>, i: nat)
  {
    && i < |orders|
    && PassCompletes(orders[..i], updates)
    && (!HasItemArray(orders[i]) || (WellFormed(orders[i]) && OutcomeAt(updates, i).Err?))
  }

  lemma EndsAtRest(orders: seq<Obj>, updates: seq<Outcome>, i: nat)
    requires EndsAt(orders, updates, i) && i > 0
    ensures WellFormed(orders[0]) && Next(updates).Ok?
    ensures EndsAt(orders[1..], Rest(updates), i - 1)
  {
    assert orders[..i][1..] == orders[1..][..i - 1];
    assert orders[1..][i - 1] == orders[i];
    OutcomeAtRest(updates, i - 1);
  }

  /** A pass with an order that ends it does not run to the end. */
  lemma {:induction false} EndsAtNotComplete(orders: seq<Obj>, updates: seq<Outcome>, i: nat)
    requires EndsAt(orders, updates, i)
    ensures !PassCompletes(orders, updates)
    decreases i
  {
    OutcomeAtRest(updates, 0);
    if i > 0 {
      EndsAtRest(orders, updates, i);
      EndsAtNotComplete(orders[1..], Rest(updates), i - 1);
    }
  }

  lemma ExpectedCallsTake(orders: seq<Obj>, i: nat)
    requires 0 < i <= |orders|
    ensures ExpectedCalls(orders[..i]) == OrderCalls(orders[0]) + ExpectedCalls(orders[1..][..i - 1])
  {
    assert orders[..i][1..] == orders[1..][..i - 1];
  }

  /** The first order ends the pass: the loop stops after it. */
  lemma OrdersEndAtFirst(orders: seq<Obj>, sends: seq<Outcome>, updates: seq<Outcome>)
    requires EndsAt(orders, updates, 0)
    ensures Calls(ProcessOrders(orders, sends, updates).events) == StopCalls(orders[0])
  {
    OrderCallsOf(orders[0], sends, updates);
    OutcomeAtRest(updates, 0);
  }

  /** The first order goes on: the loop's calls are its calls and the rest's. */
  lemma OrdersGoOn(orders: seq<Obj>, sends: seq<Outcome>, updates: seq<Outcome>)
    requires orders != [] && WellFormed(orders[0]) && Next(updates).Ok?
    ensures var o := ProcessOrder(orders[0], sends, updates);
      Calls(ProcessOrders(orders, sends, updates).events)
        == OrderCalls(orders[0]) + Calls(ProcessOrders(orders[1..], o.sends, Rest(updates)).events)
  {
    var o := ProcessOrder(orders[0], sends, updates);
    OrderCallsOf(orders[0], sends, updates);
    CallsAppend(o.events, ProcessOrders(orders[1..], o.sends, o.updates).events);
  }

  /** The calls the order that ends the pass makes: all it is due when its
      items were walked (only its Update failed), none otherwise. */
  function StopCalls(order: Obj): seq<Event>
  {
    if WellFormed(order) then OrderCalls(order) else []
  }

  lemma {:induction false} OrdersEndAt(orders: seq<Obj>, sends: seq<Outcome>, updates: seq<Outcome>, i: nat)
    requires EndsAt(orders, updates, i)
    ensures Calls(ProcessOrders(orders, sends, updates).events) == ExpectedCalls(orders[..i]) + StopCalls(orders[i])
    decreases i
  {
    if i == 0 {
      OrdersEndAtFirst(orders, sends, updates);
      assert orders[..0] == [];
    } else {
      var o := ProcessOrder(orders[0], sends, updates);
      EndsAtRest(orders, updates, i);
      OrdersEndAt(orders[1..], o.sends, Rest(updates), i - 1);
      OrdersEndAtStep(orders, sends, updates, i);
    }
  }

  /** The inductive step of OrdersEndAt: the first order goes on, so the
      loop's calls are its calls followed by those of the rest. */
  lemma OrdersEndAtStep(orders: seq<Obj>, sends: seq<Outcome>, updates: seq<Outcome>, i: nat)
    requires 0 < i < |orders| && WellFormed(orders[0]) && Next(updates).Ok?
    requires var o := ProcessOrder(orders[0], sends, updates);
      Calls(ProcessOrders(orders[1..], o.sends, Rest(updates)).events)
        == ExpectedCalls(orders[1..][..i - 1]) + StopCalls(orders[1..][i - 1])
    ensures Calls(ProcessOrders(orders, sends, updates).events) == ExpectedCalls(orders[..i]) + StopCalls(orders[i])
  {
    var first := OrderCalls(orders[0]);
    var before := ExpectedCalls(orders[1..][..i - 1]);
    var last := StopCalls(orders[i]);
    assert Calls(ProcessOrders(orders, sends, updates).events) == first + (before + last) by {
      OrdersGoOn(orders, sends, updates);
      assert orders[1..][i - 1] == orders[i];
    }
    assert ExpectedCalls(orders[..i]) == first + before by {
      ExpectedCallsTake(orders, i);
    }
    ConcatAssoc(first, before, last);
  }

  /** When order i ends the pass, the calls are those due to the orders before
      it, plus the Sends and the failed Update of order i when its items were
      walked: no later order gets a Send or an Update. The catch logs one error
      and completion is still logged. */
  lemma PassEndsAt(orders: seq<Obj>, sends: seq<Outcome>, updates: seq<Outcome>, i: nat)
    requires EndsAt(orders, updates, i)
    ensures var t := Pass(Fetched(orders), sends, updates);
      && Calls(t) == ExpectedCalls(orders[..i]) + StopCalls(orders[i])
      && Count(t, Error(PassFailed)) == 1
      && t[|t| - 1] == Info(PassCompleted)
  {
    OrdersEndAt(orders, sends, updates, i);
    EndsAtNotComplete(orders, updates, i);
    PassCallsOfOrders(orders, sends, updates);
    PassFailedLoggedOnce(Fetched(orders), sends, updates);
  }

  // ---------------------------------------------------------------------
  // Send outcomes never change which calls are made

  lemma {:induction false} ItemsIgnoreSends(orderId: Option<Json>, items: seq<Json>, s1: seq<Outcome>, s2: seq<Outcome>)
    ensures Calls(ProcessItems(orderId, items, s1).events) == Calls(ProcessItems(orderId, items, s2).events)
    decreases |items|
  {
    if items != [] && items[0].JObject? {
      var step1 := NotifyItem(orderId, items[0].fields, s1);
      var step2 := NotifyItem(orderId, items[0].fields, s2);
      ItemsIgnoreSends(orderId, items[1..], step1.sends, step2.sends);
      CallsAppend(step1.events, ProcessItems(orderId, items[1..], step1.sends).events);
      CallsAppend(step2.events, ProcessItems(orderId, items[1..], step2.sends).events);
    }
  }

  lemma OrderIgnoresSends(order: Obj, s1: seq<Outcome>, s2: seq<Outcome>, updates: seq<Outcome>)
    ensures Calls(ProcessOrder(order, s1, updates).events) == Calls(ProcessOrder(order, s2, updates).events)
  {
    var start := [Info(OrderProcessing)];
    if HasItemArray(order) {
      var items := ItemsOf(order);
      var orderId := Lookup(order, OrderIdKey);
      var run1 := ProcessItems(orderId, items, s1);
      var run2 := ProcessItems(orderId, items, s2);
      ItemsIgnoreSends(orderId, items, s1, s2);
      CallsAppend(start, run1.events);
      CallsAppend(start, run2.events);
      CallsAppend(start + run1.events, [Update(order)]);
      CallsAppend(start + run2.events, [Update(order)]);
    }
  }

  lemma {:induction false} OrdersIgnoreSends(orders: seq<Obj>, s1: seq<Outcome>, s2: seq<Outcome>, updates: seq<Outcome>)
    ensures Calls(ProcessOrders(orders, s1, updates).events) == Calls(ProcessOrders(orders, s2, updates).events)
    ensures ProcessOrders(orders, s1, updates).complete == ProcessOrders(orders, s2, updates).complete
    decreases |orders|
  {
    if orders != [] {
      var o1 := ProcessOrder(orders[0], s1, updates);
      var o2 := ProcessOrder(orders[0], s2, updates);
      OrderIgnoresSends(orders[0], s1, s2, updates);
      if o1.complete {
        OrdersIgnoreSends(orders[1..], o1.sends, o2.sends, o1.updates);
        CallsAppend(o1.events, ProcessOrders(orders[1..], o1.sends, o1.updates).events);
        CallsAppend(o2.events, ProcessOrders(orders[1..], o2.sends, o2.updates).events);
      }
    }
  }

  /** A failed Send never changes which calls the pass makes: with the same
      fetch and the same Update outcomes, every Send and every Update happens
      whatever the Send outcomes are. */
  lemma PassIgnoresSendOutcomes(fetch: FetchOutcome, s1: seq<Outcome>, s2: seq<Outcome>, updates: seq<Outcome>)
    ensures Calls(Pass(fetch, s1, updates)) == Calls(Pass(fetch, s2, updates))
  {
    if fetch.Fetched? {
      OrdersIgnoreSends(fetch.orders, s1, s2, updates);
      PassCallsOfOrders(fetch.orders, s1, updates);
      PassCallsOfOrders(fetch.orders, s2, updates);
    }
  }

  // ---------------------------------------------------------------------
  // A pass where everything succeeds logs no error

  predicate AllOk(outcomes: seq<Outcome>)
  {
    forall k :: 0 <= k < |outcomes| ==> outcomes[k].Ok?
  }

  /** Every delivered object item's counter converts to an int. */
  predicate CountersConvert(items: seq<Json>)
  {
    forall j :: 0 <= j < |items| && items[j].JObject? && IsItemDelivered(items[j].fields)
                ==> PriorCount(items[j].fields).Some?
  }

  /** Every delivered item of the order can be notified without a failure: the
      order has an OrderId and each delivered item's counter converts to an int. */
  predicate Notifiable(order: Obj)
  {
    OrderIdKey in order && (HasItemArray(order) ==> CountersConvert(ItemsOf(order)))
  }

  lemma {:induction false} ItemsNoErrors(orderId: Json, items: seq<Json>, sends: seq<Outcome>)
    requires AllOk(sends)
    requires CountersConvert(items)
    ensures NoErrors(ProcessItems(Some(orderId), items, sends).events)
    decreases |items|
  {
    if items != [] && items[0].JObject? {
      var step := NotifyItem(Some(orderId), items[0].fields, sends);
      assert forall j :: 1 <= j < |items| ==> items[1..][j - 1] == items[j];
      ItemsNoErrors(orderId, items[1..], step.sends);
      NoErrorsAppend(step.events, ProcessItems(Some(orderId), items[1..], step.sends).events);
    }
  }

  lemma {:induction false} OrdersNoErrors(orders: seq<Obj>, sends: seq<Outcome>, updates: seq<Outcome>)
    requires AllOk(sends)
    requires forall i :: 0 <= i < |orders| ==> Notifiable(orders[i])
    ensures NoErrors(ProcessOrders(orders, sends, updates).events)
    decreases |orders|
  {
    if orders != [] {
      var order := orders[0];
      var start := [Info(OrderProcessing)];
      var o := ProcessOrder(order, sends, updates);
      if HasItemArray(order) {
        var run := ProcessItems(Lookup(order, OrderIdKey), ItemsOf(order), sends);
        ItemsNoErrors(order[OrderIdKey], ItemsOf(order), sends);
        NoErrorsAppend(start, run.events);
        NoErrorsAppend(start + run.events, [Update(order)]);
        assert AllOk(o.sends) by {
          AllOkSuffix(order[OrderIdKey], ItemsOf(order), sends);
        }
      }
      assert NoErrors(o.events);
      if o.complete {
        assert forall i :: 1 <= i < |orders| ==> orders[1..][i - 1] == orders[i];
        OrdersNoErrors(orders[1..], o.sends, o.updates);
        NoErrorsAppend(o.events, ProcessOrders(orders[1..], o.sends, o.updates).events);
      }
    }
  }

  /** The Send outcomes an item loop leaves over are a suffix of its script. */
  lemma {:induction false} AllOkSuffix(orderId: Json, items: seq<Json>, sends: seq<Outcome>)
    requires AllOk(sends)
    ensures AllOk(ProcessItems(Some(orderId), items, sends).sends)
    decreases |items|
  {
    if items != [] && items[0].JObject? {
      var step := NotifyItem(Some(orderId), items[0].fields, sends);
      assert AllOk(step.sends);
      AllOkSuffix(orderId, items[1..], step.sends);
    }
  }

  // ---------------------------------------------------------------------
  // What the Send outcomes do to the working copy of the items

  /** With an OrderId, every Send succeeding and every delivered counter
      convertible, each delivered item's working copy carries the incremented
      counter (lines 38-39) and every other item is copied unchanged. */
  lemma {:induction false} ItemCopiesAllSucceed(orderId: Json, items: seq<Json>, sends: seq<Outcome>)
    requires AllObjects(items) && AllOk(sends) && CountersConvert(items)
    ensures var copies := ProcessItems(Some(orderId), items, sends).copies;
      && |copies| == |items|
      && forall j :: 0 <= j < |items| ==>
           if IsItemDelivered(items[j].fields)
           then copies[j].JObject? && IncrementDeliveryNotification(items[j].fields) == Some(copies[j].fields)
           else copies[j] == items[j]
    decreases |items|
  {
    if items != [] {
      var step := NotifyItem(Some(orderId), items[0].fields, sends);
      var tail := items[1..];
      assert forall j :: 1 <= j < |items| ==> tail[j - 1] == items[j];
      assert AllObjects(tail) && CountersConvert(tail);
      assert AllOk(step.sends);
      ItemCopiesAllSucceed(orderId, tail, step.sends);
      var rest := ProcessItems(Some(orderId), tail, step.sends).copies;
      var copies := ProcessItems(Some(orderId), items, sends).copies;
      assert copies == [JObject(step.item)] + rest;
      forall j | 1 <= j < |items|
        ensures copies[j] == rest[j - 1]
      {
      }
    }
  }

  predicate AllErr(outcomes: seq<Outcome>)
  {
    forall k :: 0 <= k < |outcomes| ==> outcomes[k].Err?
  }

  /** When the order has no OrderId, or every Send the loop can make fails,
      no counter is incremented: the working copy is the fetched item array. */
  lemma {:induction false} ItemCopiesUnchanged(orderId: Option<Json>, items: seq<Json>, sends: seq<Outcome>)
    requires AllObjects(items)
    requires orderId.None? || (AllErr(sends) && |sends| >= |items|)
    ensures ProcessItems(orderId, items, sends).copies == items
    decreases |items|
  {
    if items != [] {
      var step := NotifyItem(orderId, items[0].fields, sends);
      var tail := items[1..];
      assert AllObjects(tail) by {
        assert forall j :: 1 <= j < |items| ==> tail[j - 1] == items[j];
      }
      assert step.item == items[0].fields && (orderId.None? || step.sends == sends || step.sends == Rest(sends));
      assert orderId.None? || (AllErr(step.sends) && |step.sends| >= |tail|);
      ItemCopiesUnchanged(orderId, tail, step.sends);
      assert items == [items[0]] + tail;
    }
  }

  /** With every Send and Update succeeding, every order well formed and every
      delivered counter convertible, the pass logs no error at all. */
  lemma NoErrorsWhenAllSucceed(orders: seq<Obj>, sends: seq<Outcome>, updates: seq<Outcome>)
    requires PassCompletes(orders, updates)
    requires AllOk(sends)
    requires forall i :: 0 <= i < |orders| ==> Notifiable(orders[i])
    ensures NoErrors(Pass(Fetched(orders), sends, updates))
  {
    var run := ProcessOrders(orders, sends, updates);
    assert run.complete by {
      OrdersComplete(orders, sends, updates);
    }
    assert NoErrors(run.events) by {
      OrdersNoErrors(orders, sends, updates);
    }
    assert Pass(Fetched(orders), sends, updates) == [Info(PassStarting)] + run.events + [Info(PassCompleted)] by {
      PassOfFetched(orders, sends, updates);
    }
    NoErrorsAppend([Info(PassStarting)], run.events);
    NoErrorsAppend([Info(PassStarting)] + run.events, [Info(PassCompleted)]);
  }
}
