# Order processor pass, modelled in Dafny

This project models one processing pass of the order processor
(`OrderProcessor.ProcessOrdersAsync`) and its two helpers. `IsItemDelivered`
is the delivered test and `IncrementDeliveryNotification` bumps the counter.

The pass works like this:

- It fetches the orders.
- For every order, it walks a copy of the order's item array. For each
  delivered item it sends a delivery notification with the order's id and
  increments the item's `deliveryNotification` counter.
- It then updates the order.
- It logs start, one entry per order, and completion.

Two nested try blocks decide what a failure ends:

- The inner one covers the Send call (with the evaluation of
  `order["OrderId"].ToString()`) and the increment. A failure there logs one
  error and moves on to the next item.
- The outer one covers everything else. A failed fetch, a failed update, an
  order whose Items is not an array and an item that is not an object all end
  the pass. The outer catch logs one error and completion is still logged.

How the model represents the pass:

- JSON tokens are a datatype: null, boolean, integer, string, array, and
  object as a `map<string, Json>`.
- The three services are oracles. The fetch is either the fetched orders or a
  failure. Send and Update answer from scripted sequences of `Ok`/`Err`, one
  outcome per call; once a script is used up, every further call succeeds.
- The pass (`Processor.Pass`) is a pure function from the fetch and the two
  scripts to a trace of events: `Info(site)`, `Error(site)`,
  `Send(orderId, item)` and `Update(order)`.
- The item loop iterates `order["Items"].ToObject<JArray>()`, which is a deep
  copy. The increments therefore land on the copy (`ProcessItems(..).copies`),
  and the order handed to Update is the fetched order unchanged.

Modules:

- `JsonTokens`: the token datatype.
- `Ascii`: ordinal ignore-case equality and the decimal text of integers.
- `Items`: the two helpers.
- `Trace`: events, outcomes, and the calls of a trace.
- `Processor`: the pass.
- `CallSpec`: a reference definition of the calls a pass is due, and the
  lemmas tying the pass to it.
- `PassProperties`: the failure policy.
- `ProcessorLoops`: the same pass as nested loops with early exits, the
  way the source writes it, proved to compute what `Processor` computes.
- `Scenarios`: the situations the unit tests set up.

Update failures are not isolated per order, although one might expect that
from a per-order loop. `UpdateOrderAsync` (line 48) sits in the outer try
only, so a failed update ends the whole pass. The model follows the code.

## Model

| member | source | states |
|---|---|---|
| Items.DeliveredIffStatusSpelling | Services/Services/OrderProcessor.cs:59-62 | An item is delivered exactly when its Status is a string spelled "Delivered" in some mix of letter case. A missing Status, null, a boolean, a number, an array or an object never counts as delivered. |
| Items.DeliveredIgnoreCaseIsSpelling | Services/Services/OrderProcessor.cs:61 | Ordinal ignore-case equality with "Delivered" holds exactly for the nine-letter strings whose every letter is the lower- or upper-case form of the letter at that position. |
| Ascii.DecimalText | Services/Services/OrderProcessor.cs:61 | The text of an integer Status is never empty and starts with '-' (exactly for negative values) or a digit, so it never equals "Delivered". |
| Items.Int32Succ | Services/Services/OrderProcessor.cs:66 | The C# int addition of one: the result stays in 32-bit range, is n + 1 below int.MaxValue, wraps to int.MinValue at int.MaxValue, and always agrees with n + 1 modulo 2^32. |
| Items.Int32SuccUnique | Services/Services/OrderProcessor.cs:66 | The unchecked sum is the only 32-bit value that agrees with n + 1 modulo 2^32, so the model's increment is two's-complement addition. |
| Items.IncrementDeliveryNotification | Services/Services/OrderProcessor.cs:64-67 | The increment fails exactly when the stored counter does not convert to an int. Otherwise it adds exactly the key "deliveryNotification", sets it to the prior count plus one (an absent counter counts as 0), and leaves every other field unchanged. |
| Items.IncrementFromAbsentOrCount | Services/Services/OrderProcessor.cs:66 | An absent counter becomes 1, and an integer counter n below int.MaxValue becomes n + 1. |
| Items.IncrementKeepsDelivered | Services/Services/OrderProcessor.cs:64-67 | The increment does not change whether the item is delivered. |
| Processor.NotifyItem | Services/Services/OrderProcessor.cs:34-45 | An item that is not delivered gives no event and stays as it is. A delivered item gets one Send with the order's id, or none when the order has no OrderId, using one Send outcome. A missing OrderId, a failed Send or a counter that does not convert logs exactly one error and leaves the item unchanged; a successful Send with a convertible counter logs nothing more and the item takes the incremented counter. |
| Processor.ProcessItems | Services/Services/OrderProcessor.cs:31-46 | The item loop runs to the end exactly when every item is an object, whatever the Send outcomes. It then yields one copy per item. |
| Processor.ItemCopies | Services/Services/OrderProcessor.cs:31-46 | The working copy holds one entry per item, in order. An item that is not delivered is copied unchanged; a delivered one keeps its counter or takes the incremented one. Which of the two the Send outcomes pick is stated by PassProperties.ItemCopiesAllSucceed and PassProperties.ItemCopiesUnchanged. |
| PassProperties.ItemCopiesAllSucceed | Services/Services/OrderProcessor.cs:32-45 | With an OrderId, every Send succeeding and every delivered counter convertible, each delivered item's working copy carries the incremented counter and every other item is copied unchanged. |
| PassProperties.ItemCopiesUnchanged | Services/Services/OrderProcessor.cs:34-45 | Without an OrderId, or when the Send script holds a failure for every item, no counter is incremented: the working copy equals the fetched item array. |
| Processor.ProcessOrder | Services/Services/OrderProcessor.cs:29-48 | An order logs its processing entry first. It lets the pass go on exactly when its Items is an array of objects and its Update succeeds. Such an order ends with one Update of the fetched order itself; no other order touches the Update script. |
| Processor.Pass | Services/Services/OrderProcessor.cs:20-57 | Start is logged first and completion last, whatever fails. A failed fetch gives exactly start, one error and completion. An empty fetch gives exactly start and completion. |
| CallSpec.PassCompletesMeaning | Services/Services/OrderProcessor.cs:27-49 | PassCompletes, the condition CallSpec.OrdersComplete ties to the order loop running to the end, holds exactly when every order is well formed and the i-th Update succeeds for every i. |
| CallSpec.DeliveredSendsMembers | Services/Services/OrderProcessor.cs:32-38 | A Send is due exactly for a delivered object item of the order, with the order's id. |
| CallSpec.UpdatedIsOrders | Services/Services/OrderProcessor.cs:48 | The reference calls update every order exactly once, in fetched order, with the order object itself. |
| CallSpec.ItemsCalls | Services/Services/OrderProcessor.cs:32-46 | The item loop's calls are always a prefix of the Sends due, in item order, and are all of them when the loop runs to the end. |
| CallSpec.OrderCallsOf | Services/Services/OrderProcessor.cs:29-48 | An order's calls are a prefix of its Sends followed by its Update. They are exactly those calls when its items are an array of objects, and there are none when Items is not an array. |
| CallSpec.OrdersComplete | Services/Services/OrderProcessor.cs:27-49 | The order loop runs to the end exactly when every order is well formed and every Update succeeds, whatever the Send outcomes. |
| CallSpec.OrdersCalls | Services/Services/OrderProcessor.cs:27-49 | The order loop's calls are a prefix of the reference calls, and are all of them when the loop runs to the end. |
| CallSpec.PassCallsOfOrders | Services/Services/OrderProcessor.cs:22-56 | The log entries of a pass add no calls: the pass calls exactly what its order loop calls. |
| CallSpec.PassCalls | Services/Services/OrderProcessor.cs:20-57 | A failed fetch makes no call. Otherwise the calls are a prefix of the reference, and exactly the reference when every order is well formed and every Update succeeds. |
| CallSpec.UpdatesOncePerOrder | Services/Services/OrderProcessor.cs:48 | A pass that runs to the end updates every fetched order exactly once, in fetched order, with the fetched order object. |
| CallSpec.PassFailedLoggedOnce | Services/Services/OrderProcessor.cs:51-54 | The catch-all error is logged exactly once when the fetch fails or the pass ends early, and never otherwise. |
| PassProperties.EndsAtNotComplete | Services/Services/OrderProcessor.cs:31-48 | An order without an item array, or a well-formed order whose Update fails, keeps the pass from running to the end. |
| PassProperties.OrdersEndAt | Services/Services/OrderProcessor.cs:27-49 | When order i ends the pass by a missing item array or a failed Update, the orders before it having gone through, the loop calls exactly what the orders before it are due, plus order i's Sends and Update when its items were walked. No later order is called for. |
| PassProperties.PassEndsAt | Services/Services/OrderProcessor.cs:24-56 | When an Update fails or an order has no item array, later orders get no Send and no Update, exactly one catch-all error is logged, and completion is still logged. |
| PassProperties.OrdersIgnoreSends | Services/Services/OrderProcessor.cs:36-44 | The Send outcomes change neither the calls of the order loop nor whether it runs to the end. |
| PassProperties.PassIgnoresSendOutcomes | Services/Services/OrderProcessor.cs:36-48 | A failed Send never changes which calls the pass makes: every later item is still sent for and every order is still updated. |
| PassProperties.ItemsNoErrors | Services/Services/OrderProcessor.cs:34-45 | With an OrderId, every Send succeeding and every delivered counter convertible, the item loop logs no error. |
| PassProperties.NoErrorsWhenAllSucceed | Services/Services/OrderProcessor.cs:20-57 | A pass in which every order is well formed and has an OrderId, every delivered counter converts, and every Send and Update succeeds logs no error. |
| ProcessorLoops.RunItems | Services/Services/OrderProcessor.cs:32-46 | The item loop with an early exit at the first item that is not an object yields the same events, copies, leftover Send outcomes and completion as the recursive item loop. |
| ProcessorLoops.RunOrder | Services/Services/OrderProcessor.cs:29-48 | The statement-by-statement order body yields the same run as Processor.ProcessOrder. |
| ProcessorLoops.RunOrders | Services/Services/OrderProcessor.cs:27-49 | The foreach over orders, leaving at the first order that ends the pass, yields the same events and completion as the recursive order loop. |
| ProcessorLoops.RunPass | Services/Services/OrderProcessor.cs:20-57 | The imperative pass produces exactly the trace of Processor.Pass. |
| Scenarios.DeliveredItemIsDelivered | Tests/OrderProcessorTests.cs:20-21 | The test item with Status "Delivered" and counter 0 is delivered, and its counter converts to 0. |
| Scenarios.OneDeliveredOrder | Tests/OrderProcessorTests.cs:11-32 | One order with one delivered item and succeeding calls gives exactly start, the order's entry, one Send with the order's id, one Update of the order, and completion. No error is logged. |
| Scenarios.NotificationFailsOrderUpdated | Tests/OrderProcessorTests.cs:101-102 | A single-item order whose Send fails makes the Send, logs one error, and is still updated. |
| Scenarios.NotificationsFailOrdersStillUpdated | Tests/OrderProcessorTests.cs:85-117 | Two orders whose every Send fails still get both Sends and both Updates. One error is logged per failure and the pass runs to the end. |

## Left out

- HTTP, JSON parsing and the services themselves: they are modelled only as outcome scripts. OrderService.cs, NotificationService.cs, Program.cs and the interfaces are not part of this model.
- A script that is used up answers Ok. This stands for a service that keeps succeeding.
- A null entry in the fetched order array: orders are always JSON objects here. In the source, `order["OrderId"]` on a null order (line 29) throws before the order's entry is logged, so the outer catch ends the pass with one error and completion is still logged; the model has no such order.
- async/await: each call is awaited in order, so the model is sequential.
- Log text and the exception messages: only the level and the site of each log entry are kept.
- Floating-point and other non-integer JSON numbers: they are not among the modelled token kinds.
- `Value<int>()` on a string counter that would parse as a number: it is modelled as a conversion failure.
- Ordinal ignore-case on non-ASCII letters: only ASCII case mapping is modelled.
- The text `ToString()` prints for an array or object Status: it is not modelled beyond the fact that it starts with a bracket, so it never matches "Delivered".
- Processor.ProcessOrders: its contract states only the empty case. Its behaviour is stated by CallSpec.OrdersComplete, CallSpec.OrdersCalls and PassProperties.OrdersEndAt.
- Processor.ItemCopies: on its own it does not tie a copy to the Send outcome that decides it, because outcomes and items are consumed at different rates; the two extreme cases (all succeed, none can) are proved separately, and mixed scripts are covered only item by item through Processor.NotifyItem.
- Counters in the order handed to Update: the item loop works on a deep copy, so the model does not claim that Update carries the incremented counters.
