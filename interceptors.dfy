/** The global loading counter and its subscribers, the queue of callbacks
    waiting for a refreshed token, and response normalisation
    (src/utils/interceptors.js). */
module Interceptors {
  import opened Js

  /** A loading-state subscriber. JavaScript compares callbacks by reference;
      here the whole value is the identity. `throws` says whether invoking it
      raises an exception. */
  datatype Callback = Callback(id: nat, throws: bool)

  /** One invocation of a subscriber, with the loading state it was given. */
  datatype Delivery = Delivery(callback: Callback, loading: bool)

  /** The invocations one notification makes: every subscriber, in
      registration order, each with the same state. */
  function Deliveries(cbs: seq<Callback>, loading: bool): (r: seq<Delivery>)
    ensures |r| == |cbs|
    ensures forall i :: 0 <= i < |cbs| ==> r[i] == Delivery(cbs[i], loading)
  {
    if cbs == [] then [] else [Delivery(cbs[0], loading)] + Deliveries(cbs[1..], loading)
  }

  lemma {:induction false} DeliveriesAppend(a: seq<Callback>, b: seq<Callback>, loading: bool)
    ensures Deliveries(a + b, loading) == Deliveries(a, loading) + Deliveries(b, loading)
  {
    if a != [] {
      assert (a + b)[1..] == a[1..] + b;
      DeliveriesAppend(a[1..], b, loading);
    } else {
      assert a + b == b;
    }
  }

  /** The subscribers whose exception a notification catches and logs, in order. */
  function Throwing(cbs: seq<Callback>): (r: seq<Callback>)
    ensures |r| <= |cbs|
    ensures forall c :: c in r <==> c in cbs && c.throws
  {
    if cbs == [] then []
    else (if cbs[0].throws then [cbs[0]] else []) + Throwing(cbs[1..])
  }

  lemma {:induction false} ThrowingAppend(a: seq<Callback>, b: seq<Callback>)
    ensures Throwing(a + b) == Throwing(a) + Throwing(b)
  {
    if a != [] {
      var head := if a[0].throws then [a[0]] else [];
      assert (a + b)[0] == a[0];
      assert (a + b)[1..] == a[1..] + b;
      ThrowingAppend(a[1..], b);
      calc {
        Throwing(a + b);
        head + Throwing(a[1..] + b);
        head + (Throwing(a[1..]) + Throwing(b));
        (head + Throwing(a[1..])) + Throwing(b);
        Throwing(a) + Throwing(b);
      }
    } else {
      assert a + b == b;
    }
  }

  /** `callbacks.filter(cb => cb !== callback)`: what the unsubscribe closure
      leaves registered. */
  function Without(cbs: seq<Callback>, cb: Callback): (r: seq<Callback>)
    ensures |r| <= |cbs|
  {
    if cbs == [] then []
    else (if cbs[0] == cb then [] else [cbs[0]]) + Without(cbs[1..], cb)
  }

  /** Unsubscribing removes every registration of that callback and no
      other, and changes nothing when it was not registered. */
  lemma {:induction false} WithoutRemovesExactly(cbs: seq<Callback>, cb: Callback)
    ensures forall c :: c in Without(cbs, cb) <==> c in cbs && c != cb
    ensures cb !in cbs ==> Without(cbs, cb) == cbs
  {
    if cbs != [] {
      WithoutRemovesExactly(cbs[1..], cb);
      assert cbs == [cbs[0]] + cbs[1..];
    }
  }

  /** Unsubscribing keeps the other callbacks in their original order: the
      filter distributes over concatenation. */
  lemma {:induction false} WithoutKeepsOrder(a: seq<Callback>, b: seq<Callback>, cb: Callback)
    ensures Without(a + b, cb) == Without(a, cb) + Without(b, cb)
  {
    if a == [] {
      assert a + b == b;
    } else {
      var head := if a[0] == cb then [] else [a[0]];
      assert (a + b)[0] == a[0] && (a + b)[1..] == a[1..] + b;
      WithoutKeepsOrder(a[1..], b, cb);
      assert head + (Without(a[1..], cb) + Without(b, cb)) == (head + Without(a[1..], cb)) + Without(b, cb);
    }
  }





  /** Unsubscribing twice is the same as unsubscribing once. */
  lemma WithoutIdempotent(cbs: seq<Callback>, cb: Callback)
    ensures Without(Without(cbs, cb), cb) == Without(cbs, cb)
  {
    WithoutRemovesExactly(cbs, cb);
    WithoutRemovesExactly(Without(cbs, cb), cb);
  }

  /** The two calls that move the counter. */
  datatype Op = Start | End

  /** The counter after one call, and the state it notifies, if it notifies. */
  datatype Transition = Transition(count: nat, notice: Option<bool>)

  /** `startLoading` / `endLoading` on the counter alone. */
  function Step(count: nat, op: Op): (t: Transition)
    ensures op == Start ==> t.count == count + 1
    ensures op == End ==> t.count == if count == 0 then 0 else count - 1
    ensures t.notice == Some(true) <==> op == Start && t.count == 1
    ensures t.notice == Some(false) <==> op == End && t.count == 0
    ensures t.notice.None? <==> (op == Start && t.count != 1) || (op == End && t.count != 0)
  {
    match op
    case Start =>
      var n := count + 1;
      Transition(n, if n == 1 then Some(true) else None)
    case End =>
      var n: nat := if count - 1 > 0 then count - 1 else 0;
      Transition(n, if n == 0 then Some(false) else None)
  }

  /** The final count and the notifications of a sequence of calls. */
  datatype Trace = Trace(count: nat, notices: seq<bool>)

  function Run(count: nat, ops: seq<Op>): Trace
    decreases |ops|
  {
    if ops == [] then Trace(count, [])
    else
      var s := Step(count, ops[0]);
      var rest := Run(s.count, ops[1..]);
      Trace(rest.count, (if s.notice.Some? then [s.notice.value] else []) + rest.notices)
  }

  function Repeat(op: Op, k: nat): (r: seq<Op>)
    ensures |r| == k
    ensures forall i :: 0 <= i < k ==> r[i] == op
  {
    if k == 0 then [] else [op] + Repeat(op, k - 1)
  }

  /** Running two sequences of calls one after the other. */
  lemma {:induction false} RunAppend(count: nat, a: seq<Op>, b: seq<Op>)
    ensures Run(count, a + b).count == Run(Run(count, a).count, b).count
    ensures Run(count, a + b).notices == Run(count, a).notices + Run(Run(count, a).count, b).notices
    decreases |a|
  {
    if a != [] {
      var s := Step(count, a[0]);
      var head := if s.notice.Some? then [s.notice.value] else [];
      assert (a + b)[0] == a[0];
      assert (a + b)[1..] == a[1..] + b;
      RunAppend(s.count, a[1..], b);
      assert Run(count, a + b).notices == head + Run(s.count, a[1..] + b).notices;
      assert Run(count, a).notices == head + Run(s.count, a[1..]).notices;
    } else {
      assert a + b == b;
    }
  }

  /** k starts raise the count by k and notify `true` once, only from idle. */
  lemma {:induction false} StartsRaise(count: nat, k: nat)
    ensures Run(count, Repeat(Start, k)) == Trace(count + k, if count == 0 && k > 0 then [true] else [])
    decreases k
  {
    if k > 0 {
      assert Repeat(Start, k)[1..] == Repeat(Start, k - 1);
      StartsRaise(count + 1, k - 1);
    }
  }

  /** k ends from a count of at least k lower it by k and notify `false` once,
      only when they reach zero. */
  lemma {:induction false} EndsLower(count: nat, k: nat)
    requires k <= count
    ensures Run(count, Repeat(End, k)) == Trace(count - k, if k > 0 && k == count then [false] else [])
  {
    if k > 0 {
      assert Repeat(End, k)[1..] == Repeat(End, k - 1);
      EndsLower(count - 1, k - 1);
    }
  }

  /** n starts followed by n ends return the counter to where it was; from
      idle they notify exactly `true` then `false`, and otherwise nothing. */
  lemma BalancedCallsRestoreCount(count: nat, k: nat)
    ensures Run(count, Repeat(Start, k) + Repeat(End, k)).count == count
    ensures Run(count, Repeat(Start, k) + Repeat(End, k)).notices
         == if count == 0 && k > 0 then [true, false] else []
  {
    RunAppend(count, Repeat(Start, k), Repeat(End, k));
    StartsRaise(count, k);
    EndsLower(count + k, k);
  }

  /** Unbalanced ends never take the counter below zero, and each of them
      notifies `false` again. */
  lemma {:induction false} EndsWhenIdle(k: nat)
    ensures Run(0, Repeat(End, k)).count == 0
    ensures Run(0, Repeat(End, k)).notices == seq(k, _ => false)
  {
    if k > 0 {
      assert Repeat(End, k)[1..] == Repeat(End, k - 1);
      EndsWhenIdle(k - 1);
    }
  }

  /** The deliveries a transition causes: none, or one per subscriber. */
  function Announced(cbs: seq<Callback>, notice: Option<bool>): seq<Delivery> {
    if notice.Some? then Deliveries(cbs, notice.value) else []
  }

  /** The logged exceptions a transition causes. */
  function AnnouncedErrors(cbs: seq<Callback>, notice: Option<bool>): seq<Callback> {
    if notice.Some? then Throwing(cbs) else []
  }

  /** One more subscriber adds its delivery at the end. */
  lemma DeliveriesStep(cbs: seq<Callback>, i: nat, loading: bool)
    requires i < |cbs|
    ensures Deliveries(cbs[..i + 1], loading) == Deliveries(cbs[..i], loading) + [Delivery(cbs[i], loading)]
  {
  }

  /** One more subscriber adds itself to the error log exactly when it throws. */
  lemma ThrowingStep(cbs: seq<Callback>, i: nat)
    requires i < |cbs|
    ensures Throwing(cbs[..i + 1]) == Throwing(cbs[..i]) + (if cbs[i].throws then [cbs[i]] else [])
  {
    assert cbs[..i + 1] == cbs[..i] + [cbs[i]];
    ThrowingAppend(cbs[..i], [cbs[i]]);
    assert [cbs[i]][1..] == [];
  }

  /** The loop of `_notifyLoadingState`: every subscriber is called in
      order, and the exceptions are caught and logged without stopping the
      loop. */
  method CallEach(cbs: seq<Callback>, loading: bool) returns (calls: seq<Delivery>, errors: seq<Callback>)
    ensures calls == Deliveries(cbs, loading)
    ensures errors == Throwing(cbs)
  {
    calls, errors := [], [];
    var i := 0;
    while i < |cbs|
      invariant 0 <= i <= |cbs|
      invariant calls == Deliveries(cbs[..i], loading)
      invariant errors == Throwing(cbs[..i])
    {
      DeliveriesStep(cbs, i, loading);
      ThrowingStep(cbs, i);
      calls := calls + [Delivery(cbs[i], loading)];
      if cbs[i].throws {
        errors := errors + [cbs[i]];
      }
      i := i + 1;
    }
    assert cbs[..i] == cbs;
  }

  /** `LoadingHandler`: a counter of requests in flight, floored at zero,
      that tells its subscribers when it leaves zero and whenever an end
      leaves it at zero. */
  class LoadingHandler {
    var activeRequests: nat
    var callbacks: seq<Callback>
    /** Every subscriber invocation so far, in order. */
    var delivered: seq<Delivery>
    /** The subscribers whose exception was caught and logged, in order. */
    var errorLog: seq<Callback>

    constructor ()
      ensures activeRequests == 0 && callbacks == [] && delivered == [] && errorLog == []
    {
      activeRequests := 0;
      callbacks := [];
      delivered := [];
      errorLog := [];
    }

    /** `isLoading()` */
    function IsLoading(): (r: bool)
      reads this
      ensures r <==> activeRequests > 0
    {
      activeRequests > 0
    }

    /** `onLoadingStateChange(callback)`; the returned closure is `Unsubscribe`. */
    method OnLoadingStateChange(cb: Callback)
      modifies this
      ensures callbacks == old(callbacks) + [cb]
      ensures activeRequests == old(activeRequests)
      ensures delivered == old(delivered) && errorLog == old(errorLog)
    {
      callbacks := callbacks + [cb];
    }

    /** The closure `onLoadingStateChange` returns: drops every registration
        of `cb` and keeps the rest in order. */
    method Unsubscribe(cb: Callback)
      modifies this
      ensures callbacks == Without(old(callbacks), cb)
      ensures activeRequests == old(activeRequests)
      ensures delivered == old(delivered) && errorLog == old(errorLog)
    {
      callbacks := Without(callbacks, cb);
    }

    /** `_notifyLoadingState(loading)`: calls every subscriber in order; an
        exception is caught, logged, and does not stop the later ones. */
    method NotifyLoadingState(loading: bool)
      modifies this
      ensures delivered == old(delivered) + Deliveries(callbacks, loading)
      ensures errorLog == old(errorLog) + Throwing(callbacks)
      ensures callbacks == old(callbacks) && activeRequests == old(activeRequests)
    {
      var calls, errors := CallEach(callbacks, loading);
      delivered := delivered + calls;
      errorLog := errorLog + errors;
    }

    /** `startLoading()` */
    method StartLoading()
      modifies this
      ensures activeRequests == Step(old(activeRequests), Start).count
      ensures delivered == old(delivered) + Announced(callbacks, Step(old(activeRequests), Start).notice)
      ensures errorLog == old(errorLog) + AnnouncedErrors(callbacks, Step(old(activeRequests), Start).notice)
      ensures callbacks == old(callbacks)
    {
      activeRequests := activeRequests + 1;
      if activeRequests == 1 {
        NotifyLoadingState(true);
      }
    }

    /** `endLoading()` */
    method EndLoading()
      modifies this
      ensures activeRequests == Step(old(activeRequests), End).count
      ensures delivered == old(delivered) + Announced(callbacks, Step(old(activeRequests), End).notice)
      ensures errorLog == old(errorLog) + AnnouncedErrors(callbacks, Step(old(activeRequests), End).notice)
      ensures callbacks == old(callbacks)
    {
      activeRequests := if activeRequests - 1 > 0 then activeRequests - 1 else 0;
      if activeRequests == 0 {
        NotifyLoadingState(false);
      }
    }
  }

  /** A callback waiting in the token-refresh queue. `throws` says whether the
      caller's callback raises when given the token. */
  datatype Subscriber = Subscriber(id: nat, throws: bool)

  /** A call made with a refreshed token: to a subscriber's callback, or to
      the resolver of the promise `subscribeTokenRefresh` returned. */
  datatype Invocation = Invocation(subscriber: nat, token: string)

  function Invocations(subs: seq<Subscriber>, token: string): (r: seq<Invocation>)
    ensures |r| == |subs|
    ensures forall i :: 0 <= i < |subs| ==> r[i] == Invocation(subs[i].id, token)
  {
    if subs == [] then [] else [Invocation(subs[0].id, token)] + Invocations(subs[1..], token)
  }

  /** One more queued entry adds one invocation at the end. */
  lemma InvocationsStep(subs: seq<Subscriber>, i: nat, token: string)
    requires i < |subs|
    ensures Invocations(subs[..i + 1], token) == Invocations(subs[..i], token) + [Invocation(subs[i].id, token)]
  {
  }

  /** The index of the first subscriber that throws, or the queue length. */
  function FirstThrowing(subs: seq<Subscriber>): (k: nat)
    ensures k <= |subs|
    ensures forall j :: 0 <= j < k ==> !subs[j].throws
    ensures k < |subs| ==> subs[k].throws
  {
    if subs == [] then 0
    else if subs[0].throws then 0
    else 1 + FirstThrowing(subs[1..])
  }

  /** The `forEach` of `onRefreshSuccess`: each entry's callback is called
      and then its promise resolved, until a callback throws. */
  method CallQueued(subs: seq<Subscriber>, token: string) returns (called: seq<Invocation>, settled: seq<Invocation>, threw: bool)
    ensures threw <==> FirstThrowing(subs) < |subs|
    ensures !threw ==> called == Invocations(subs, token) && settled == Invocations(subs, token)
    ensures threw ==> (called == Invocations(subs[..FirstThrowing(subs) + 1], token)
      && settled == Invocations(subs[..FirstThrowing(subs)], token))
  {
    called, settled := [], [];
    var i := 0;
    while i < |subs| && !subs[i].throws
      invariant 0 <= i <= |subs|
      invariant forall j :: 0 <= j < i ==> !subs[j].throws
      invariant called == Invocations(subs[..i], token)
      invariant settled == Invocations(subs[..i], token)
    {
      InvocationsStep(subs, i, token);
      called := called + [Invocation(subs[i].id, token)];
      settled := settled + [Invocation(subs[i].id, token)];
      i := i + 1;
    }
    assert i == FirstThrowing(subs);
    if i < |subs| {
      InvocationsStep(subs, i, token);
      called := called + [Invocation(subs[i].id, token)];
      threw := true;
    } else {
      assert subs[..i] == subs;
      threw := false;
    }
  }

  /** The module-level `refreshSubscribers` queue. */
  class RefreshQueue {
    var subscribers: seq<Subscriber>
    /** Every callback call made with a token, in order. */
    var invoked: seq<Invocation>
    /** Every promise resolved with a token, in order. */
    var resolved: seq<Invocation>

    constructor ()
      ensures subscribers == [] && invoked == [] && resolved == []
    {
      subscribers := [];
      invoked := [];
      resolved := [];
    }

    /** `subscribeTokenRefresh(callback)`: queues exactly one entry. */
    method SubscribeTokenRefresh(s: Subscriber)
      modifies this
      ensures subscribers == old(subscribers) + [s]
      ensures invoked == old(invoked) && resolved == old(resolved)
    {
      subscribers := subscribers + [s];
    }

    /** `onRefreshSuccess(token)`: calls the queued entries in order, each
        calling its callback and then resolving its promise, and empties the
        queue. A callback that throws ends the `forEach`: its promise is not
        resolved, later entries are not called, the queue is not emptied, and
        `threw` reports the exception to the caller. */
    method OnRefreshSuccess(token: string) returns (threw: bool)
      modifies this
      ensures threw <==> FirstThrowing(old(subscribers)) < |old(subscribers)|
      ensures !threw ==> (subscribers == []
        && invoked == old(invoked) + Invocations(old(subscribers), token)
        && resolved == old(resolved) + Invocations(old(subscribers), token))
      ensures threw ==> (subscribers == old(subscribers)
        && invoked == old(invoked) + Invocations(old(subscribers)[..FirstThrowing(old(subscribers)) + 1], token)
        && resolved == old(resolved) + Invocations(old(subscribers)[..FirstThrowing(old(subscribers))], token))
    {
      var called, settled;
      called, settled, threw := CallQueued(subscribers, token);
      invoked := invoked + called;
      resolved := resolved + settled;
      if !threw {
        subscribers := [];
      }
    }
  }

  /** The normalised response `formatResponse` builds. */
  datatype Formatted = Formatted(success: Value, message: Value, data: Value, timestamp: Value)

  /** `formatResponse(responseData)`, with `now` standing for
      `new Date().toISOString()`. `None`: reading a property of `null` or
      `undefined` throws. */
  function FormatResponse(response: Value, now: string): (r: Option<Formatted>)
    ensures r.None? <==> Nullish(response)
    ensures r.Some? ==> !Nullish(r.value.success)
    ensures r.Some? && !Nullish(Get(response, "success")) ==> r.value.success == Get(response, "success")
    ensures r.Some? && Nullish(Get(response, "success")) ==> r.value.success == Bool(true)
    ensures r.Some? && Truthy(Get(response, "message")) ==> r.value.message == Get(response, "message")
    ensures r.Some? && !Truthy(Get(response, "message")) ==> r.value.message == Str("")
    ensures r.Some? && Truthy(Get(response, "data")) ==> r.value.data == Get(response, "data")
    ensures r.Some? && !Truthy(Get(response, "data")) ==> r.value.data == response
    ensures r.Some? && Truthy(Get(response, "timestamp")) ==> r.value.timestamp == Get(response, "timestamp")
    ensures r.Some? && !Truthy(Get(response, "timestamp")) ==> r.value.timestamp == Str(now)
  {
    if Nullish(response) then None
    else Some(Formatted(
      Coalesce(Get(response, "success"), Bool(true)),
      Or(Get(response, "message"), Str("")),
      Or(Get(response, "data"), response),
      Or(Get(response, "timestamp"), Str(now))))
  }

  /** A formatted response as the plain object it is in JavaScript. */
  function AsObject(f: Formatted): Value {
    Obj(map["success" := f.success, "message" := f.message, "data" := f.data, "timestamp" := f.timestamp])
  }

  /** Formatting an already formatted response keeps its success flag,
      message and timestamp, and its data whenever that data is truthy. */
  lemma FormatResponseStable(response: Value, now: string, later: string)
    requires !Nullish(response) && now != ""
    ensures var f := FormatResponse(response, now).value;
      var g := FormatResponse(AsObject(f), later).value;
      g.success == f.success && g.message == f.message && g.timestamp == f.timestamp
      && (Truthy(f.data) ==> g.data == f.data)
  {
    var f := FormatResponse(response, now).value;
    assert Get(AsObject(f), "success") == f.success;
    assert Get(AsObject(f), "message") == f.message;
    assert Get(AsObject(f), "data") == f.data;
    assert Get(AsObject(f), "timestamp") == f.timestamp;
  }
}
