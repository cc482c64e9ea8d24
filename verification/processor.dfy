/** One processing pass of the order processor, as a pure function from the
    fetched orders and the services' scripted outcomes to the trace of log
    entries and service calls.

    Two try blocks decide what a failure ends. The inner one covers only the
    Send call (with the evaluation of its OrderId argument) and the counter
    increment: a failure there logs one error and moves on to the next item.
    The outer one covers everything else, so a failed fetch, a failed update,
    an order whose Items is not an array and an item that is not an object all
    end the pass; the catch logs one error and completion is still logged.

    The item loop walks `order["Items"].ToObject<JArray>()`, a deep copy of the
    item array, so increments land on the copy (returned here as `copies`) and
    the order handed to Update is the fetched order itself. */
module Processor {
  import opened JsonTokens
  import opened Items
  import opened Trace

  const OrderIdKey: string := "OrderId"
  const ItemsKey: string := "Items"

  /** The effect of the inner try block on one delivered-or-not object item. */
  datatype ItemStep = ItemStep(events: seq<Event>, item: Obj, sends: seq<Outcome>)

  /** The item loop of one order: its events, the working copy of the item
      array, the Send outcomes left over, and whether it ran to the end
      (false when an item that is not an object ended the pass). */
  datatype ItemsRun = ItemsRun(events: seq<Event>, copies: seq<Json>, sends: seq<Outcome>, complete: bool)

  /** One order: its events, the outcomes left over, and whether the pass goes on. */
  datatype OrderRun = OrderRun(events: seq<Event>, sends: seq<Outcome>, updates: seq<Outcome>, complete: bool)

  /** All orders: the events and whether every order was processed. */
  datatype OrdersRun = OrdersRun(events: seq<Event>, complete: bool)

  /** Lines 34-45 for one item that is a JSON object. */
  function NotifyItem(orderId: Option<Json>, item: Obj, sends: seq<Outcome>): (r: ItemStep)
    // an item that is not delivered is skipped and left as it is
    ensures !IsItemDelivered(item) ==> r == ItemStep([], item, sends)
    // a delivered item makes at most one Send call, with this order's id
    ensures Calls(r.events) == (if IsItemDelivered(item) && orderId.Some? then [Send(orderId.value, item)] else [])
    // each attempt uses exactly one scripted Send outcome
    ensures r.sends == (if IsItemDelivered(item) && orderId.Some? then Rest(sends) else sends)
    // the item either keeps its counter or takes the incremented one, and logs an error in the first case only
    ensures r.item == item || IncrementDeliveryNotification(item) == Some(r.item)
    ensures IsItemDelivered(item) ==> |r.events| >= 1
    ensures IsItemDelivered(item) ==> (r.events[|r.events| - 1] == Error(NotificationFailed) <==> r.item == item)
    // a failed Send logs exactly one error and leaves the counter unchanged
    ensures IsItemDelivered(item) && orderId.Some? && Next(sends).Err? ==>
              r.events == [Send(orderId.value, item), Error(NotificationFailed)] && r.item == item
    // a successful Send increments the counter and logs nothing more
    ensures IsItemDelivered(item) && orderId.Some? && Next(sends).Ok? && PriorCount(item).Some? ==>
              r.events == [Send(orderId.value, item)] && Some(r.item) == IncrementDeliveryNotification(item)
    // a counter that does not convert logs exactly one error after the Send and stays as it is
    ensures IsItemDelivered(item) && orderId.Some? && Next(sends).Ok? && PriorCount(item).None? ==>
              r.events == [Send(orderId.value, item), Error(NotificationFailed)] && r.item == item
    // a missing OrderId throws before the Send: exactly one error, no call, no increment
    ensures IsItemDelivered(item) && orderId.None? ==> r.events == [Error(NotificationFailed)] && r.item == item
    ensures Count(r.events, Error(PassFailed)) == 0
  {
    if !IsItemDelivered(item) then ItemStep([], item, sends)
    else
      match orderId
      // order["OrderId"].ToString() throws before Send is called
      case None => ItemStep([Error(NotificationFailed)], item, sends)
      case Some(id) =>
        var send := Send(id, item);
        if Next(sends).Err? then ItemStep([send, Error(NotificationFailed)], item, Rest(sends))
        else
          match IncrementDeliveryNotification(item)
          case Some(incremented) => ItemStep([send], incremented, Rest(sends))
          case None => ItemStep([send, Error(NotificationFailed)], item, Rest(sends))
  }

  predicate AllObjects(items: seq<Json>)
  {
    forall j :: 0 <= j < |items| ==> items[j].JObject?
  }

  /** Lines 32-46: the item loop over the copied item array. */
  function ProcessItems(orderId: Option<Json>, items: seq<Json>, sends: seq<Outcome>): (r: ItemsRun)
    // the loop runs to the end exactly when every item is an object
    ensures r.complete <==> AllObjects(items)
    ensures r.complete ==> |r.copies| == |items|
    ensures |r.sends| <= |sends|
    decreases |items|
  {
    if items == [] then ItemsRun([], [], sends, true)
    // item["Status"] on a token that is not an object throws outside the inner try
    else if !items[0].JObject? then ItemsRun([], [], sends, false)
    else
      var step := NotifyItem(orderId, items[0].fields, sends);
      var rest := ProcessItems(orderId, items[1..], step.sends);
      ItemsRun(step.events + rest.events, [JObject(step.item)] + rest.copies, rest.sends, rest.complete)
  }

  /** How the working copy of one item relates to the fetched item: an item
      that is not delivered is copied unchanged, a delivered one keeps its
      counter or takes the incremented one. */
  predicate CopyOf(original: Json, copy: Json)
  {
    && original.JObject? && copy.JObject?
    && (!IsItemDelivered(original.fields) ==> copy == original)
    && (copy == original || IncrementDeliveryNotification(original.fields) == Some(copy.fields))
  }

  /** The working copy after the item loop holds one copy per item, in order. */
  lemma {:induction false} ItemCopies(orderId: Option<Json>, items: seq<Json>, sends: seq<Outcome>)
    requires AllObjects(items)
    ensures var copies := ProcessItems(orderId, items, sends).copies;
      |copies| == |items| && forall j :: 0 <= j < |items| ==> CopyOf(items[j], copies[j])
    decreases |items|
  {
    if items != [] {
      var step := NotifyItem(orderId, items[0].fields, sends);
      var rest := ProcessItems(orderId, items[1..], step.sends).copies;
      assert AllObjects(items[1..]) by {
        assert forall j :: 0 <= j < |items[1..]| ==> items[1..][j] == items[j + 1];
      }
      ItemCopies(orderId, items[1..], step.sends);
      var copies := ProcessItems(orderId, items, sends).copies;
      assert copies == [JObject(step.item)] + rest;
      assert CopyOf(items[0], copies[0]);
      forall j | 1 <= j < |items|
        ensures CopyOf(items[j], copies[j])
      {
        assert items[j] == items[1..][j - 1] && copies[j] == rest[j - 1];
      }
    }
  }

  /** Line 31 converts the order's Items to an array only when it is one. */
  predicate HasItemArray(order: Obj)
  {
    ItemsKey in order && order[ItemsKey].JArray?
  }

  function ItemsOf(order: Obj): seq<Json>
    requires HasItemArray(order)
  {
    order[ItemsKey].elems
  }

  /** An order is processed without ending the pass only when its Items is an
      array of objects (line 31 and the item loop). */
  predicate WellFormed(order: Obj)
  {
    HasItemArray(order) && AllObjects(ItemsOf(order))
  }

  /** Lines 29-48 for one order. */
  function ProcessOrder(order: Obj, sends: seq<Outcome>, updates: seq<Outcome>): (r: OrderRun)
    ensures |r.events| >= 1 && r.events[0] == Info(OrderProcessing)
    // the order goes on to the next one exactly when it is well formed and its update succeeds
    ensures r.complete <==> WellFormed(order) && Next(updates).Ok?
    // a well-formed order is updated once, last, with the fetched order itself
    ensures WellFormed(order) ==> r.events[|r.events| - 1] == Update(order) && r.updates == Rest(updates)
    ensures !WellFormed(order) ==> r.updates == updates
    ensures |r.sends| <= |sends|
  {
    var start := [Info(OrderProcessing)];
    // a missing Items throws on ToObject; any other token fails to convert to an array
    if !HasItemArray(order) then OrderRun(start, sends, updates, false)
    else
      var run := ProcessItems(Lookup(order, OrderIdKey), ItemsOf(order), sends);
      if !run.complete then OrderRun(start + run.events, run.sends, updates, false)
      else OrderRun(start + run.events + [Update(order)], run.sends, Rest(updates), Next(updates).Ok?)
  }

  /** Lines 27-49: the order loop; it stops at the first order that ends the pass. */
  function ProcessOrders(orders: seq<Obj>, sends: seq<Outcome>, updates: seq<Outcome>): (r: OrdersRun)
    ensures |orders| == 0 ==> r == OrdersRun([], true)
    decreases |orders|
  {
    if orders == [] then OrdersRun([], true)
    else
      var o := ProcessOrder(orders[0], sends, updates);
      if !o.complete then OrdersRun(o.events, false)
      else
        var rest := ProcessOrders(orders[1..], o.sends, o.updates);
        OrdersRun(o.events + rest.events, rest.complete)
  }

  /** ProcessOrdersAsync (lines 20-57): one whole pass. */
  function Pass(fetch: FetchOutcome, sends: seq<Outcome>, updates: seq<Outcome>): (t: seq<Event>)
    // start and completion are always logged, whatever fails
    ensures |t| >= 2 && t[0] == Info(PassStarting) && t[|t| - 1] == Info(PassCompleted)
    // a failed fetch makes no call and logs exactly one error
    ensures fetch.FetchFailed? ==> t == [Info(PassStarting), Error(PassFailed), Info(PassCompleted)]
    // an empty fetch makes no call and logs start and completion only
    ensures fetch == Fetched([]) ==> t == [Info(PassStarting), Info(PassCompleted)]
  {
    var body :=
      match fetch
      case FetchFailed => [Error(PassFailed)]
      case Fetched(orders) =>
        var run := ProcessOrders(orders, sends, updates);
        run.events + (if run.complete then [] else [Error(PassFailed)]);
    [Info(PassStarting)] + body + [Info(PassCompleted)]
  }

  /** The shape of a pass over fetched orders: start, the order loop, the
      catch-all error when the loop ended early, completion. */
  lemma PassOfFetched(orders: seq<Obj>, sends: seq<Outcome>, updates: seq<Outcome>)
    ensures var run := ProcessOrders(orders, sends, updates);
      Pass(Fetched(orders), sends, updates)
        == [Info(PassStarting)] + run.events + ((if run.complete then [] else [Error(PassFailed)]) + [Info(PassCompleted)])
  {
  }
}
