/** The pass written the way the source writes it: a loop over the fetched
    orders around a loop over each order's copied items, with early exits
    where an exception leaves the outer try block. Each method computes what
    its functional counterpart in Processor does. */
module ProcessorLoops {
  import opened JsonTokens
  import opened Items
  import opened Trace
  import opened Processor

  /** The item loop after i items: what is done so far followed by the
      recursive loop over the remaining items gives the whole loop. */
  predicate ItemsSoFar(orderId: Option<Json>, items: seq<Json>, sends: seq<Outcome>, i: nat,
                       events: seq<Event>, copies: seq<Json>, left: seq<Outcome>)
  {
    && i <= |items|
    && var whole, rest := ProcessItems(orderId, items, sends), ProcessItems(orderId, items[i..], left);
      && whole.events == events + rest.events
      && whole.copies == copies + rest.copies
      && whole.sends == rest.sends
      && whole.complete == rest.complete
  }

  lemma ItemsAdvance(orderId: Option<Json>, items: seq<Json>, sends: seq<Outcome>, i: nat,
                     events: seq<Event>, copies: seq<Json>, left: seq<Outcome>)
    requires ItemsSoFar(orderId, items, sends, i, events, copies, left)
    requires i < |items| && items[i].JObject?
    ensures var step := NotifyItem(orderId, items[i].fields, left);
      ItemsSoFar(orderId, items, sends, i + 1, events + step.events, copies + [JObject(step.item)], step.sends)
  {
    var step := NotifyItem(orderId, items[i].fields, left);
    assert items[i..][0] == items[i];
    assert items[i..][1..] == items[i + 1..];
    var rest := ProcessItems(orderId, items[i + 1..], step.sends);
    ConcatAssoc(events, step.events, rest.events);
    ConcatAssoc(copies, [JObject(step.item)], rest.copies);
  }

  lemma ItemsStop(orderId: Option<Json>, items: seq<Json>, sends: seq<Outcome>, i: nat,
                  events: seq<Event>, copies: seq<Json>, left: seq<Outcome>)
    requires ItemsSoFar(orderId, items, sends, i, events, copies, left)
    requires i == |items| || !items[i].JObject?
    ensures ItemsRun(events, copies, left, i == |items|) == ProcessItems(orderId, items, sends)
  {
    if i < |items| {
      assert items[i..][0] == items[i];
    } else {
      assert items[i..] == [];
    }
    assert events + [] == events && copies + [] == copies;
  }

  /** Lines 32-46: the item loop. */
  method RunItems(orderId: Option<Json>, items: seq<Json>, sends: seq<Outcome>)
    returns (events: seq<Event>, copies: seq<Json>, left: seq<Outcome>, complete: bool)
    ensures ItemsRun(events, copies, left, complete) == ProcessItems(orderId, items, sends)
  {
    events, copies, left := [], [], sends;
    var i := 0;
    while i < |items| && items[i].JObject?
      invariant ItemsSoFar(orderId, items, sends, i, events, copies, left)
      decreases |items| - i
    {
      ItemsAdvance(orderId, items, sends, i, events, copies, left);
      var step := NotifyItem(orderId, items[i].fields, left);
      events, copies, left := events + step.events, copies + [JObject(step.item)], step.sends;
      i := i + 1;
    }
    // an item that is not an object: item["Status"] throws outside the inner try
    ItemsStop(orderId, items, sends, i, events, copies, left);
    complete := i == |items|;
  }

  /** Lines 29-48 for one order. */
  method RunOrder(order: Obj, sends: seq<Outcome>, updates: seq<Outcome>) returns (r: OrderRun)
    ensures r == ProcessOrder(order, sends, updates)
  {
    var start := [Info(OrderProcessing)];
    if !HasItemArray(order) {
      // order["Items"].ToObject<JArray>() throws
      return OrderRun(start, sends, updates, false);
    }
    var events, copies, left, complete := RunItems(Lookup(order, OrderIdKey), ItemsOf(order), sends);
    if !complete {
      return OrderRun(start + events, left, updates, false);
    }
    r := OrderRun(start + events + [Update(order)], left, Rest(updates), Next(updates).Ok?);
  }

  /** The order loop after i orders, as for the item loop. */
  predicate OrdersSoFar(orders: seq<Obj>, sends: seq<Outcome>, updates: seq<Outcome>, i: nat,
                        events: seq<Event>, s: seq<Outcome>, u: seq<Outcome>)
  {
    && i <= |orders|
    && var whole, rest := ProcessOrders(orders, sends, updates), ProcessOrders(orders[i..], s, u);
      whole.events == events + rest.events && whole.complete == rest.complete
  }

  lemma OrdersAdvance(orders: seq<Obj>, sends: seq<Outcome>, updates: seq<Outcome>, i: nat,
                      events: seq<Event>, s: seq<Outcome>, u: seq<Outcome>)
    requires OrdersSoFar(orders, sends, updates, i, events, s, u)
    requires i < |orders| && ProcessOrder(orders[i], s, u).complete
    ensures var o := ProcessOrder(orders[i], s, u);
      OrdersSoFar(orders, sends, updates, i + 1, events + o.events, o.sends, o.updates)
  {
    var o := ProcessOrder(orders[i], s, u);
    assert orders[i..][0] == orders[i];
    assert orders[i..][1..] == orders[i + 1..];
    ConcatAssoc(events, o.events, ProcessOrders(orders[i + 1..], o.sends, o.updates).events);
  }

  lemma OrdersStop(orders: seq<Obj>, sends: seq<Outcome>, updates: seq<Outcome>, i: nat,
                   events: seq<Event>, s: seq<Outcome>, u: seq<Outcome>)
    requires OrdersSoFar(orders, sends, updates, i, events, s, u)
    requires i < |orders| && !ProcessOrder(orders[i], s, u).complete
    ensures OrdersRun(events + ProcessOrder(orders[i], s, u).events, false) == ProcessOrders(orders, sends, updates)
  {
    assert orders[i..][0] == orders[i];
  }

  lemma OrdersDone(orders: seq<Obj>, sends: seq<Outcome>, updates: seq<Outcome>,
                   events: seq<Event>, s: seq<Outcome>, u: seq<Outcome>)
    requires OrdersSoFar(orders, sends, updates, |orders|, events, s, u)
    ensures OrdersRun(events, true) == ProcessOrders(orders, sends, updates)
  {
    assert orders[|orders|..] == [];
    assert events + [] == events;
  }

  /** Lines 27-49: the order loop; the first order that ends the pass stops it. */
  method RunOrders(orders: seq<Obj>, sends: seq<Outcome>, updates: seq<Outcome>)
    returns (events: seq<Event>, complete: bool)
    ensures OrdersRun(events, complete) == ProcessOrders(orders, sends, updates)
  {
    events := [];
    var s, u := sends, updates;
    var i := 0;
    while i < |orders|
      invariant OrdersSoFar(orders, sends, updates, i, events, s, u)
      decreases |orders| - i
    {
      var o := RunOrder(orders[i], s, u);
      if !o.complete {
        OrdersStop(orders, sends, updates, i, events, s, u);
        events, complete := events + o.events, false;
        return;
      }
      OrdersAdvance(orders, sends, updates, i, events, s, u);
      events, s, u := events + o.events, o.sends, o.updates;
      i := i + 1;
    }
    OrdersDone(orders, sends, updates, events, s, u);
    complete := true;
  }

  /** ProcessOrdersAsync (lines 20-57). */
  method RunPass(fetch: FetchOutcome, sends: seq<Outcome>, updates: seq<Outcome>) returns (t: seq<Event>)
    ensures t == Pass(fetch, sends, updates)
  {
    t := [Info(PassStarting)];
    match fetch {
      case FetchFailed =>
        t := t + [Error(PassFailed)];
      case Fetched(orders) =>
        var events, complete := RunOrders(orders, sends, updates);
        t := t + events;
        if !complete {
          t := t + [Error(PassFailed)];
        }
    }
    t := t + [Info(PassCompleted)];
  }
}
