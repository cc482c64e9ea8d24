/** Concrete passes: the situations the repository's unit tests set up, with
    the whole trace or its calls worked out. */
module Scenarios {
  import opened JsonTokens
  import opened Items
  import opened Trace
  import opened Processor
  import opened CallSpec

  /** `{ "Status": "Delivered", "Description": <d>, "deliveryNotification": 0 }` */
  function DeliveredItem(description: string): Obj
  {
    map["Status" := JString("Delivered"), "Description" := JString(description), "deliveryNotification" := JInt(0)]
  }

  /** `{ "OrderId": <id>, "Items": [<item>] }` */
  function SingleItemOrder(id: string, item: Obj): Obj
  {
    map["OrderId" := JString(id), "Items" := JArray([JObject(item)])]
  }

  /** The test item is delivered and its counter converts. */
  lemma DeliveredItemIsDelivered(description: string)
    ensures IsItemDelivered(DeliveredItem(description))
    ensures PriorCount(DeliveredItem(description)) == Some(0)
  {
    var item := DeliveredItem(description);
    assert item[StatusKey] == JString("Delivered");
    assert item[CounterKey] == JInt(0);
    DeliveredIffStatusSpelling(item);
  }

  lemma SingleItemOrderShape(id: string, item: Obj)
    ensures WellFormed(SingleItemOrder(id, item))
    ensures ItemsOf(SingleItemOrder(id, item)) == [JObject(item)]
    ensures Lookup(SingleItemOrder(id, item), OrderIdKey) == Some(JString(id))
  {
  }

  /** The item loop over one delivered item. */
  lemma OneItemLoop(id: string, item: Obj, sends: seq<Outcome>)
    requires IsItemDelivered(item)
    ensures var step := NotifyItem(Some(JString(id)), item, sends);
      ProcessItems(Some(JString(id)), [JObject(item)], sends)
        == ItemsRun(step.events, [JObject(step.item)], Rest(sends), true)
  {
    var step := NotifyItem(Some(JString(id)), item, sends);
    assert [JObject(item)][1..] == [];
    assert ProcessItems(Some(JString(id)), [], Rest(sends)) == ItemsRun([], [], Rest(sends), true);
    assert step.events + [] == step.events;
  }

  /** One order with one delivered item, every call succeeding: the item is
      notified once with the order's id, the order is updated once, and only
      information is logged. */
  lemma OneDeliveredOrder(id: string, item: Obj, sends: seq<Outcome>, updates: seq<Outcome>)
    requires IsItemDelivered(item) && PriorCount(item).Some?
    requires Next(sends).Ok? && Next(updates).Ok?
    ensures var order := SingleItemOrder(id, item);
      Pass(Fetched([order]), sends, updates)
        == [Info(PassStarting), Info(OrderProcessing), Send(JString(id), item), Update(order), Info(PassCompleted)]
  {
    var order := SingleItemOrder(id, item);
    SingleItemOrderShape(id, item);
    OneItemLoop(id, item, sends);
    assert ProcessOrder(order, sends, updates).events
      == [Info(OrderProcessing), Send(JString(id), item), Update(order)];
    assert [order][1..] == [];
  }

  /** The events of a single-item order whose notification fails: the Send
      is made, one error is logged, and the order is still updated. */
  function FailedNotificationEvents(id: string, item: Obj): seq<Event>
  {
    [Info(OrderProcessing), Send(JString(id), item), Error(NotificationFailed), Update(SingleItemOrder(id, item))]
  }

  lemma NotificationFailsOrderUpdated(id: string, item: Obj, sends: seq<Outcome>, updates: seq<Outcome>)
    requires IsItemDelivered(item) && Next(sends).Err?
    ensures ProcessOrder(SingleItemOrder(id, item), sends, updates)
              == OrderRun(FailedNotificationEvents(id, item), Rest(sends), Rest(updates), Next(updates).Ok?)
  {
    SingleItemOrderShape(id, item);
    OneItemLoop(id, item, sends);
  }

  /** Two orders whose every notification fails: both items are still sent
      for, both orders are still updated, each failure logs one error, and the
      pass runs to the end. */
  lemma NotificationsFailOrdersStillUpdated(id1: string, item1: Obj, id2: string, item2: Obj, updates: seq<Outcome>)
    requires IsItemDelivered(item1) && IsItemDelivered(item2)
    requires OutcomeAt(updates, 0).Ok? && OutcomeAt(updates, 1).Ok?
    ensures var o1 := SingleItemOrder(id1, item1);
      var o2 := SingleItemOrder(id2, item2);
      Pass(Fetched([o1, o2]), [Err, Err], updates)
        == [Info(PassStarting)] + FailedNotificationEvents(id1, item1)
           + FailedNotificationEvents(id2, item2) + [Info(PassCompleted)]
  {
    var o1 := SingleItemOrder(id1, item1);
    var o2 := SingleItemOrder(id2, item2);
    var e1 := FailedNotificationEvents(id1, item1);
    var e2 := FailedNotificationEvents(id2, item2);
    assert ProcessOrders([o2], [Err], Rest(updates)) == OrdersRun(e2, true) by {
      OutcomeAtRest(updates, 0);
      NotificationFailsOrderUpdated(id2, item2, [Err], Rest(updates));
      assert [o2][1..] == [];
    }
    assert ProcessOrders([o1, o2], [Err, Err], updates) == OrdersRun(e1 + e2, true) by {
      NotificationFailsOrderUpdated(id1, item1, [Err, Err], updates);
      assert [o1, o2][1..] == [o2];
    }
    PassOfFetched([o1, o2], [Err, Err], updates);
    assert [] + [Info(PassCompleted)] == [Info(PassCompleted)];
    ConcatAssoc([Info(PassStarting)], e1, e2);
  }
}
