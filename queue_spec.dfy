/**
 * The request queue's behaviour as functions of the queue, the session and
 * the pacing delay.
 *
 * `Drain` is what `startExecutor` does to a non-empty queue: it dispatches
 * the head; a head that fails its checks emits one failure event and calls
 * `next()`, which either schedules `runQueue` (paced mode) or runs it at
 * once, popping the head and dispatching the new one. In the immediate mode
 * that chain repeats until a request passes its checks or the queue is
 * empty; a request that passes stays at the head until a completion
 * callback calls `next()`.
 */
module QueueSpec {
  import opened BleTypes
  import opened GattChecks

  /**
   * The queue left behind, the failure events emitted, the transport calls
   * made, and the delay of a `runQueue` that was scheduled, if one was.
   */
  datatype DrainResult = DrainResult(
    rest: seq<Request>,
    events: seq<Event>,
    calls: seq<TransportCall>,
    posted: Option<int>)

  /** The outcome of doing nothing. */
  function Idle(q: seq<Request>): DrainResult
  {
    DrainResult(q, [], [], None)
  }

  function Drain(q: seq<Request>, gatt: Option<Session>, delay: Option<int>): (d: DrainResult)
    requires q != []
    decreases |q|
  {
    var e := DispatchEffect(q[0], gatt);
    var evs := EventsOf(q[0].kind, e);
    if e.Passed() then DrainResult(q, [], e.calls, None)
    else if delay.Some? then DrainResult(q, evs, e.calls, delay)
    else if |q| == 1 then DrainResult([], evs, e.calls, None)
    else
      var d := Drain(q[1..], gatt, delay);
      DrainResult(d.rest, evs + d.events, e.calls + d.calls, d.posted)
  }

  /** Draining only ever removes rejected requests, and only from the head. */
  lemma {:induction false} DrainSuffix(q: seq<Request>, gatt: Option<Session>, delay: Option<int>)
    requires q != []
    decreases |q|
    ensures var d := Drain(q, gatt, delay);
      // what is left is a suffix, in order
      && |d.rest| <= |q| && d.rest == q[|q| - |d.rest|..]
      // every request removed was rejected by its checks
      && (forall i :: 0 <= i < |q| - |d.rest| ==> !DispatchEffect(q[i], gatt).Passed())
  {
    var e := DispatchEffect(q[0], gatt);
    if !e.Passed() && delay.None? && |q| > 1 {
      DrainSuffix(q[1..], gatt, delay);
      var d := Drain(q[1..], gatt, delay);
      assert forall i :: 1 <= i < |q| - |d.rest| ==> q[i] == q[1..][i - 1];
    }
  }

  /** Draining stops where the source stops. */
  lemma {:induction false} DrainStops(q: seq<Request>, gatt: Option<Session>, delay: Option<int>)
    requires q != []
    decreases |q|
    ensures var d := Drain(q, gatt, delay);
      // in the paced mode nothing is removed at once; a rejection schedules runQueue
      && (delay.Some? ==> d.rest == q)
      && (d.posted.Some? ==> d.posted == delay && !DispatchEffect(q[0], gatt).Passed())
      // the immediate mode stops only at a request that passed, or at the empty queue
      && (d.rest != [] && d.posted.None? ==> DispatchEffect(d.rest[0], gatt).Passed())
  {
    var e := DispatchEffect(q[0], gatt);
    if !e.Passed() && delay.None? && |q| > 1 {
      DrainStops(q[1..], gatt, delay);
    }
  }

  /**
   * One failure event per rejected dispatch, in queue order: the i-th event
   * is the failure of the i-th request, of its own kind and with the reason
   * its checks gave.
   */
  lemma {:induction false} DrainEvents(q: seq<Request>, gatt: Option<Session>, delay: Option<int>)
    requires q != []
    decreases |q|
    ensures var d := Drain(q, gatt, delay);
      && |d.rest| <= |q| && |d.events| <= |q|
      && |d.events| == |q| - |d.rest| + (if d.posted.Some? then 1 else 0)
      && (forall i :: 0 <= i < |d.events| ==>
            && !DispatchEffect(q[i], gatt).Passed()
            && d.events[i] == FailureFor(q[i].kind, DispatchEffect(q[i], gatt).failure.value)
            && CapabilityOf(d.events[i]) == CapabilityOfKind(q[i].kind))
  {
    var e := DispatchEffect(q[0], gatt);
    var evs := EventsOf(q[0].kind, e);
    if !e.Passed() && delay.None? && |q| > 1 {
      DrainEvents(q[1..], gatt, delay);
      var d := Drain(q[1..], gatt, delay);
      assert |evs| == 1;
      var all := evs + d.events;
      forall j | 1 <= j < |all|
        ensures && !DispatchEffect(q[j], gatt).Passed()
                && all[j] == FailureFor(q[j].kind, DispatchEffect(q[j], gatt).failure.value)
      {
        assert all[j] == d.events[j - 1] && q[j] == q[1..][j - 1];
      }
    }
  }

  /** At most one operation reaches the link, and only when one is left in flight at the head. */
  lemma {:induction false} DrainAirborne(q: seq<Request>, gatt: Option<Session>, delay: Option<int>)
    requires q != []
    decreases |q|
    ensures var d := Drain(q, gatt, delay);
      AirborneCount(d.calls) == if d.rest != [] && d.posted.None? then 1 else 0
  {
    var e := DispatchEffect(q[0], gatt);
    DispatchAirborne(q[0], gatt);
    if !e.Passed() && delay.None? && |q| > 1 {
      DrainAirborne(q[1..], gatt, delay);
      AirborneAppend(e.calls, Drain(q[1..], gatt, delay).calls);
    }
  }

  /** What draining a non-empty queue guarantees. */
  lemma DrainSpec(q: seq<Request>, gatt: Option<Session>, delay: Option<int>)
    requires q != []
    ensures var d := Drain(q, gatt, delay);
      && |d.rest| <= |q| && d.rest == q[|q| - |d.rest|..]
      && (forall i :: 0 <= i < |q| - |d.rest| ==> !DispatchEffect(q[i], gatt).Passed())
      && (delay.Some? ==> d.rest == q)
      && (d.posted.Some? ==> d.posted == delay && !DispatchEffect(q[0], gatt).Passed())
      && (d.rest != [] && d.posted.None? ==> DispatchEffect(d.rest[0], gatt).Passed())
      && |d.events| == |q| - |d.rest| + (if d.posted.Some? then 1 else 0)
      && (forall i :: 0 <= i < |d.events| ==>
            && !DispatchEffect(q[i], gatt).Passed()
            && d.events[i] == FailureFor(q[i].kind, DispatchEffect(q[i], gatt).failure.value)
            && CapabilityOf(d.events[i]) == CapabilityOfKind(q[i].kind))
      && AirborneCount(d.calls) == if d.rest != [] && d.posted.None? then 1 else 0
  {
    DrainSuffix(q, gatt, delay);
    DrainStops(q, gatt, delay);
    DrainEvents(q, gatt, delay);
    DrainAirborne(q, gatt, delay);
  }

  /**
   * `addRequest`: the request goes to the tail, and the head is dispatched
   * only when the queue was empty before.
   */
  function AddRequest(q: seq<Request>, r: Request, gatt: Option<Session>, delay: Option<int>): (d: DrainResult)
  {
    if q == [] then Drain([r], gatt, delay) else Idle(q + [r])
  }

  /**
   * `runQueue`: the head is removed, and the new head, if any, is
   * dispatched.
   */
  function RunQueue(q: seq<Request>, gatt: Option<Session>, delay: Option<int>): (d: DrainResult)
  {
    if |q| <= 1 then Idle([]) else Drain(q[1..], gatt, delay)
  }

  /**
   * `next()`: in the paced mode `runQueue` is scheduled and nothing else
   * happens; otherwise it runs at once.
   */
  function Next(q: seq<Request>, gatt: Option<Session>, delay: Option<int>): DrainResult
  {
    if delay.Some? then DrainResult(q, [], [], delay) else RunQueue(q, gatt, delay)
  }

  /**
   * What `next()` does: in the paced mode it only schedules `runQueue`; in
   * the immediate mode it removes the head and then every following request
   * that is rejected, reports each of those failures in order, and leaves
   * exactly one operation in flight when a request is left at the head.
   */
  lemma NextSpec(q: seq<Request>, gatt: Option<Session>, delay: Option<int>)
    ensures var d := Next(q, gatt, delay);
      && (delay.Some? ==> d.rest == q && d.events == [] && d.calls == [] && d.posted == delay)
      && (delay.None? ==>
            && d.posted.None?
            && (q == [] ==> d == Idle([]))
            && (q != [] ==>
                  && |d.rest| < |q| && d.rest == q[|q| - |d.rest|..]
                  && (forall i :: 1 <= i < |q| - |d.rest| ==> !DispatchEffect(q[i], gatt).Passed())
                  && (d.rest != [] ==> DispatchEffect(d.rest[0], gatt).Passed())
                  && |d.events| == |q| - 1 - |d.rest|
                  && (forall i :: 0 <= i < |d.events| ==>
                        d.events[i] == FailureFor(q[i + 1].kind, DispatchEffect(q[i + 1], gatt).failure.value))
                  && AirborneCount(d.calls) == if d.rest != [] then 1 else 0))
  {
    if delay.None? && |q| > 1 {
      var t := q[1..];
      DrainSpec(t, gatt, delay);
      var d := Drain(t, gatt, delay);
      assert t[|t| - |d.rest|..] == q[|q| - |d.rest|..];
      assert forall i :: 1 <= i < |q| ==> q[i] == t[i - 1];
    }
  }

  /**
   * Appending to a non-empty queue dispatches nothing; appending to an
   * empty one dispatches the new request, and at most one operation
   * reaches the link either way.
   */
  lemma AddRequestDispatchesIffEmpty(q: seq<Request>, r: Request, gatt: Option<Session>, delay: Option<int>)
    ensures var d := AddRequest(q, r, gatt, delay);
      && (q != [] ==> d.rest == q + [r] && d.events == [] && d.calls == [] && d.posted.None?)
      && (q == [] ==> |d.events| + AirborneCount(d.calls) == 1)
      && AirborneCount(d.calls) <= 1
  {
    if q == [] {
      DrainSpec([r], gatt, delay);
      var d := Drain([r], gatt, delay);
      assert |d.rest| == 0 || |d.rest| == 1;
    }
  }

  /**
   * `runQueue` polls the head, a no-op on an empty queue, and dispatches
   * the new head exactly when one is left. That dispatch gives one failure
   * or one operation on the link; in the immediate mode the drain may go on
   * past rejected requests, and it stops at a request that passed.
   */
  lemma RunQueueRemovesHead(q: seq<Request>, gatt: Option<Session>, delay: Option<int>)
    ensures var d := RunQueue(q, gatt, delay);
      && (|q| <= 1 ==> d == Idle([]))
      && (q != [] ==> |d.rest| < |q| && d.rest == q[|q| - |d.rest|..])
      && (delay.Some? && q != [] ==> d.rest == q[1..])
      && (|q| > 1 && delay.Some? ==> |d.events| + AirborneCount(d.calls) == 1)
      && (|q| > 1 ==> |d.events| + AirborneCount(d.calls) >= 1)
      && (|q| > 1 && delay.None? ==> |d.events| == |q| - 1 - |d.rest|)
      && (|q| > 1 && d.posted.None? && d.rest != [] ==> DispatchEffect(d.rest[0], gatt).Passed())
      && AirborneCount(d.calls) <= 1
  {
    if |q| > 1 {
      DrainSpec(q[1..], gatt, delay);
      assert q[1..][|q[1..]| - |RunQueue(q, gatt, delay).rest|..] == q[|q| - |RunQueue(q, gatt, delay).rest|..];
    }
  }

  /**
   * Without a session and without pacing, one dispatch empties the whole
   * queue and reports each request's failure, in order, with no transport
   * call.
   */
  lemma {:induction false} DrainWithoutSession(q: seq<Request>)
    requires q != []
    ensures var d := Drain(q, None, None);
      && d.rest == [] && d.calls == [] && d.posted.None?
      && d.events == seq(|q|, i requires 0 <= i < |q| => FailureFor(q[i].kind, NoSession))
  {
    if |q| > 1 {
      DrainWithoutSession(q[1..]);
    }
  }
}
