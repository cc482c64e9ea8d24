/** What one processing pass makes observable: its log entries (level and site
    only), the calls it makes to the notification and order services, and the
    outcomes those services answer with. */
module Trace {
  import opened JsonTokens

  /** Where an information entry is logged. */
  datatype InfoSite =
    | PassStarting     // "Starting order processing..."
    | OrderProcessing  // "Processing order with ID ..."
    | PassCompleted    // "Order processing completed."

  /** Where an error entry is logged. */
  datatype ErrorSite =
    | NotificationFailed  // the catch around Send and the increment
    | PassFailed          // the catch around the whole pass

  datatype Event =
    | Info(info: InfoSite)
    | Error(error: ErrorSite)
      /** SendDeliveryNotificationAsync(item, orderId): `orderId` is the OrderId
          token, whose ToString() is the string argument. */
    | Send(orderId: Json, item: Obj)
      /** UpdateOrderAsync(order) */
    | Update(order: Obj)

  /** Outcome of one call to a service: it returned, or it threw. */
  datatype Outcome = Ok | Err

  /** Outcome of FetchOrdersAsync: the order array, or a thrown exception. */
  datatype FetchOutcome = Fetched(orders: seq<Obj>) | FetchFailed

  /** The outcome the next call answers with; once the scripted outcomes are
      used up every further call succeeds. */
  function Next(outcomes: seq<Outcome>): Outcome
  {
    if |outcomes| == 0 then Ok else outcomes[0]
  }

  /** The outcomes left for later calls after one call. */
  function Rest(outcomes: seq<Outcome>): (r: seq<Outcome>)
    ensures |outcomes| > 0 ==> |r| == |outcomes| - 1
  {
    if |outcomes| == 0 then [] else outcomes[1..]
  }

  /** The outcome of the k-th call (from 0) of a script. */
  function OutcomeAt(outcomes: seq<Outcome>, k: nat): Outcome
  {
    if k < |outcomes| then outcomes[k] else Ok
  }

  predicate IsCall(e: Event)
  {
    e.Send? || e.Update?
  }

  /** The service calls of a trace, in order, without the log entries. */
  function Calls(t: seq<Event>): (c: seq<Event>)
    ensures |c| <= |t|
  {
    if t == [] then [] else (if IsCall(t[0]) then [t[0]] else []) + Calls(t[1..])
  }

  /** Number of occurrences of one event in a trace. */
  function Count(t: seq<Event>, e: Event): nat
  {
    if t == [] then 0 else (if t[0] == e then 1 else 0) + Count(t[1..], e)
  }

  predicate NoErrors(t: seq<Event>)
  {
    forall k :: 0 <= k < |t| ==> !t[k].Error?
  }

  lemma {:induction false} CallsAppend(a: seq<Event>, b: seq<Event>)
    ensures Calls(a + b) == Calls(a) + Calls(b)
    decreases |a|
  {
    if a == [] {
      assert a + b == b;
    } else {
      var head := if IsCall(a[0]) then [a[0]] else [];
      assert (a + b)[0] == a[0];
      assert (a + b)[1..] == a[1..] + b;
      assert Calls(a + b) == head + Calls(a[1..] + b);
      CallsAppend(a[1..], b);
      assert Calls(a) == head + Calls(a[1..]);
    }
  }

  lemma {:induction false} CountAppend(a: seq<Event>, b: seq<Event>, e: Event)
    ensures Count(a + b, e) == Count(a, e) + Count(b, e)
    decreases |a|
  {
    if a == [] {
      assert a + b == b;
    } else {
      assert (a + b)[1..] == a[1..] + b;
      CountAppend(a[1..], b, e);
    }
  }

  lemma PrefixConcat(a: seq<Event>, b: seq<Event>, c: seq<Event>)
    requires b <= c
    ensures a + b <= a + c
  {
    assert (a + c)[..|a + b|] == a + c[..|b|];
  }

  lemma PrefixAppend(a: seq<Event>, b: seq<Event>, c: seq<Event>)
    requires a <= b
    ensures a <= b + c
  {
    assert (b + c)[..|a|] == b[..|a|];
  }

  lemma ConcatAssoc<T>(a: seq<T>, b: seq<T>, c: seq<T>)
    ensures a + (b + c) == (a + b) + c
  {
  }

  lemma NoErrorsAppend(a: seq<Event>, b: seq<Event>)
    ensures NoErrors(a + b) <==> NoErrors(a) && NoErrors(b)
  {
    if NoErrors(a) && NoErrors(b) {
      forall k | 0 <= k < |a + b|
        ensures !(a + b)[k].Error?
      {
        if k >= |a| {
          assert (a + b)[k] == b[k - |a|];
        }
      }
    }
    if NoErrors(a + b) {
      assert forall k :: 0 <= k < |a| ==> a[k] == (a + b)[k];
      assert forall k :: 0 <= k < |b| ==> b[k] == (a + b)[k + |a|];
    }
  }

  /** A trace of log entries only holds no call. */
  lemma {:induction false} NoCallsInLogs(t: seq<Event>)
    requires forall k :: 0 <= k < |t| ==> !IsCall(t[k])
    ensures Calls(t) == []
    decreases |t|
  {
    if t != [] {
      NoCallsInLogs(t[1..]);
    }
  }
}
