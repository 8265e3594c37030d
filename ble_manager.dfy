/**
 * The single-peripheral controller: its link flags, GATT session, retry
 * budget, RSSI poller, request queue and listener registry, updated in
 * place by the caller's operations, by transport callbacks and by delayed
 * actions the environment fires.
 *
 * The environment is visible through three logs the controller appends to:
 * `log` (listener callbacks with the listeners they reached), `calls`
 * (calls made on the transport) and `pending` (delayed actions posted to
 * the scheduler). Values the transport hands back (a new session, service
 * lookups, bond state, callback arguments) are parameters.
 */
module Manager {
  import opened BleTypes
  import opened GattChecks
  import opened Listeners
  import opened ConnParams
  import Retry
  import QueueSpec

  /** A delayed action posted to the scheduler, with its delay in milliseconds. */
  datatype Pending =
    | RunQueueAfter(delay: int)
    | ConnectWatchdog(delay: int)
    | ServiceWatchdog(delay: int)
    | DiscoverAfter(delay: int)

  /** Delay between the connected callback and the service discovery it triggers. */
  const DiscoveryDelay: int := 600

  function Posted(d: Option<int>): seq<Pending>
  {
    if d.Some? then [RunQueueAfter(d.value)] else []
  }

  function Removed(p: seq<Pending>, i: nat): seq<Pending>
    requires i < |p|
  {
    p[..i] + p[i + 1..]
  }

  function CloseIfOpen(gatt: Option<Session>): seq<TransportCall>
  {
    if gatt.Some? then [CloseGatt(gatt.value)] else []
  }

  /** The failure `connect` reports when it rejects the call. */
  function ConnectRejection(dev: Option<Device>): Event
  {
    if dev.None? then DeviceConnectFail(LocalErrorCode, NullDevice) else DeviceConnectFail(0, AlreadyConnected)
  }

  /**
   * What `connect` did to the link and the logs, from the old values to the
   * new ones. It is rejected, changing nothing but the log, for a missing
   * device or a live link. Otherwise it closes any held session, opens the
   * new one, reports connecting and posts the connect watchdog when `arms`.
   */
  predicate ConnectDid(auto: bool, dev: Option<Device>, session: Option<Session>, ls: set<Listener>,
                       arms: bool, timeout: int,
                       connected0: bool, gatt0: Option<Session>, log0: seq<Delivery>,
                       calls0: seq<TransportCall>, pending0: seq<Pending>,
                       connected: bool, gatt: Option<Session>, log: seq<Delivery>,
                       calls: seq<TransportCall>, pending: seq<Pending>)
  {
    if dev.None? || connected0 then
      && gatt == gatt0 && connected == connected0 && calls == calls0 && pending == pending0
      && log == log0 + Deliveries([ConnectRejection(dev)], ls)
    else
      && gatt == session && !connected
      && calls == calls0 + CloseIfOpen(gatt0) + [ConnectGatt(dev.value, auto)]
      && log == log0 + Deliveries([DeviceConnecting], ls)
      && pending == pending0 + (if arms then [ConnectWatchdog(timeout)] else [])
  }

  /** The outcome of the checks the public operations make before they enqueue. */
  datatype Resolution = Resolved(c: Characteristic) | Unresolved(reason: Reason)

  /** `writeBytesToCharacteristic`: session, both UUIDs, service and characteristic, then the new value. */
  function ResolveWrite(gatt: Option<Session>, serviceUuid: Option<Uuid>, characteristicUuid: Option<Uuid>,
                        service: Option<ServiceTable>, bytes: seq<bv8>): (res: Resolution)
    ensures res.Resolved? <==>
      gatt.Some? && serviceUuid.Some? && characteristicUuid.Some? && service.Some?
      && characteristicUuid.value in service.value
    ensures res.Resolved? ==> res.c == service.value[characteristicUuid.value].(value := bytes)
  {
    if gatt.None? then Unresolved(NoSession)
    else if serviceUuid.None? then Unresolved(NullServiceUuid)
    else if characteristicUuid.None? then Unresolved(NullCharacteristicUuid)
    else if service.None? then Unresolved(NoService)
    else if characteristicUuid.value !in service.value then Unresolved(NoCharacteristic)
    else Resolved(service.value[characteristicUuid.value].(value := bytes))
  }

  /** `readCharacteristic`, and each UUID of the two enable operations: session, service, characteristic. */
  function ResolveInService(gatt: Option<Session>, characteristicUuid: Uuid, service: Option<ServiceTable>): (res: Resolution)
    ensures res.Resolved? <==> gatt.Some? && service.Some? && characteristicUuid in service.value
    ensures res.Resolved? ==> res.c == service.value[characteristicUuid]
  {
    if gatt.None? then Unresolved(NoSession)
    else if service.None? then Unresolved(NoService)
    else if characteristicUuid !in service.value then Unresolved(NoCharacteristic)
    else Resolved(service.value[characteristicUuid])
  }

  /** A public operation either reports one failure of its kind or adds its request to the queue. */
  function EnqueueOrFail(q: seq<Request>, gatt: Option<Session>, delay: Option<int>,
                         k: RequestKind, enable: bool, res: Resolution): QueueSpec.DrainResult
  {
    match res
    case Unresolved(reason) => QueueSpec.DrainResult(q, [FailureFor(k, reason)], [], None)
    case Resolved(c) => QueueSpec.AddRequest(q, Request(k, Some(c), enable), gatt, delay)
  }

  /** The UUIDs of an enable operation that the service holds, in order. */
  function HeldUuids(uuids: seq<Uuid>, table: ServiceTable): (h: seq<Uuid>)
    ensures |h| <= |uuids|
    ensures forall i :: 0 <= i < |h| ==> h[i] in table
  {
    if uuids == [] then []
    else HeldUuids(uuids[..|uuids| - 1], table) + (if uuids[|uuids| - 1] in table then [uuids[|uuids| - 1]] else [])
  }

  /** A UUID is among the held ones exactly when the operation names it and the service holds it. */
  lemma {:induction false} HeldUuidsIff(uuids: seq<Uuid>, table: ServiceTable, x: Uuid)
    ensures x in HeldUuids(uuids, table) <==> x in uuids && x in table
  {
    if uuids != [] {
      var init, last := uuids[..|uuids| - 1], uuids[|uuids| - 1];
      assert uuids == init + [last];
      HeldUuidsIff(init, table, x);
    }
  }

  /**
   * The requests of an enable operation: one per UUID the service holds, in
   * order, each of the operation's kind, on that UUID's characteristic and
   * carrying the operation's `enable` flag.
   */
  function ResolvedRequests(k: RequestKind, enable: bool, uuids: seq<Uuid>, table: ServiceTable): (rs: seq<Request>)
    ensures |rs| == |HeldUuids(uuids, table)|
    ensures forall i {:trigger HeldUuids(uuids, table)[i]} :: 0 <= i < |rs| ==> rs[i] == Request(k, Some(table[HeldUuids(uuids, table)[i]]), enable)
  {
    if uuids == [] then []
    else
      ResolvedRequests(k, enable, uuids[..|uuids| - 1], table)
        + (if uuids[|uuids| - 1] in table then [Request(k, Some(table[uuids[|uuids| - 1]]), enable)] else [])
  }

  /** The failure event of one UUID of an enable operation, if the service does not hold it. */
  function MissingEvent(k: RequestKind, uuid: Uuid, table: ServiceTable): seq<Event>
  {
    if uuid in table then [] else [FailureFor(k, NoCharacteristic)]
  }

  /**
   * The failure events of an enable operation: one missing-characteristic
   * failure of its kind per UUID the service does not hold, so that every
   * UUID gives exactly one request or one failure.
   */
  function MissingEvents(k: RequestKind, uuids: seq<Uuid>, table: ServiceTable): (es: seq<Event>)
    ensures |es| + |HeldUuids(uuids, table)| == |uuids|
    ensures forall i :: 0 <= i < |es| ==> es[i] == FailureFor(k, NoCharacteristic)
  {
    if uuids == [] then []
    else
      MissingEvents(k, uuids[..|uuids| - 1], table) + MissingEvent(k, uuids[|uuids| - 1], table)
  }

  /** The listener event of a completed characteristic read that is not the connection-parameter read. */
  function ReadCompletionEvents(c: Characteristic, status: int): seq<Event>
  {
    if status == GattSuccess then (if c.uuid == PpcpUuid then [] else [ReadSuccess(c)])
    else if status == GattInsufficientAuthentication then [ReadFailure(status, LostBonding)]
    else [ReadFailure(status, TransportError)]
  }

  function WriteCompletionEvents(c: Characteristic, status: int): seq<Event>
  {
    if status == GattSuccess then [WriteSuccess(c)]
    else if status == GattInsufficientAuthentication then [WriteFailed(status, LostBonding)]
    else [WriteFailed(status, TransportError)]
  }

  /**
   * A read completion advances the queue with the pacing in force after it:
   * when it is the connection-parameter read, the automatic delay it just
   * derived is the one `next()` uses.
   */
  lemma ParameterReadPacesNext(octets: seq<int>, queueDelayTime: int)
    requires |octets| >= 8 && IsOctets(octets) && queueDelayTime < 0
    ensures var delay := NextDelay(true, queueDelayTime, AutoQueueInterval(Decode(octets)));
      && delay.Some? && delay.value >= QueueMargin
  {
    AutoQueueIntervalBounds(octets);
  }

  /**
   * Part of the way through a `startExecutor` whose whole drain is `d0`:
   * what is still to happen from the queue `q`, added to what has happened,
   * is `d0`.
   */
  predicate Resumes(d0: QueueSpec.DrainResult, q: seq<Request>, gatt: Option<Session>, delay: Option<int>,
                    events: seq<Event>, made: seq<TransportCall>)
  {
    && q != []
    && var d := QueueSpec.Drain(q, gatt, delay);
    && d0.rest == d.rest && d0.events == events + d.events && d0.calls == made + d.calls && d0.posted == d.posted
  }

  /**
   * Dispatching the head of `q` and calling `next()` when it is rejected
   * either completes the drain `d0` or leaves the rest of it to the tail of `q`.
   */
  lemma ResumeAfterHead(d0: QueueSpec.DrainResult, q: seq<Request>, gatt: Option<Session>, delay: Option<int>,
                        events: seq<Event>, made: seq<TransportCall>)
    requires Resumes(d0, q, gatt, delay, events, made)
    ensures var e := DispatchEffect(q[0], gatt);
      var events', made' := events + EventsOf(q[0].kind, e), made + e.calls;
      && (e.Passed() ==> d0 == QueueSpec.DrainResult(q, events', made', None))
      && (!e.Passed() && delay.Some? ==> d0 == QueueSpec.DrainResult(q, events', made', delay))
      && (!e.Passed() && delay.None? && |q| == 1 ==> d0 == QueueSpec.DrainResult([], events', made', None))
      && (!e.Passed() && delay.None? && |q| > 1 ==> Resumes(d0, q[1..], gatt, delay, events', made'))
  {
    var e := DispatchEffect(q[0], gatt);
    var evs := EventsOf(q[0].kind, e);
    if e.Passed() {
      assert evs == [];
      assert events + evs == events + [] == events;
    } else if delay.None? && |q| > 1 {
      var d1 := QueueSpec.Drain(q[1..], gatt, delay);
      assert events + (evs + d1.events) == (events + evs) + d1.events;
      assert made + (e.calls + d1.calls) == (made + e.calls) + d1.calls;
    }
  }

  /** A dispatch of `r` reported its failure, if any, and made its transport calls. */
  predicate Dispatched(r: Request, gatt: Option<Session>, ls: set<Listener>, log0: seq<Delivery>, log: seq<Delivery>,
                       calls0: seq<TransportCall>, calls: seq<TransportCall>, passed: bool)
  {
    var e := DispatchEffect(r, gatt);
    && passed == e.Passed()
    && log == log0 + Deliveries(EventsOf(r.kind, e), ls)
    && calls == calls0 + e.calls
  }

  /** The queue and the logs are as `d` says, starting from the given old values. */
  predicate Outcome(d: QueueSpec.DrainResult, ls: set<Listener>,
                    log0: seq<Delivery>, calls0: seq<TransportCall>, pending0: seq<Pending>,
                    queue: seq<Request>, log: seq<Delivery>, calls: seq<TransportCall>, pending: seq<Pending>)
  {
    && queue == d.rest
    && log == log0 + Deliveries(d.events, ls)
    && calls == calls0 + d.calls
    && pending == pending0 + Posted(d.posted)
  }

  /**
   * What follows the dispatch of the head of `q` in `startExecutor`:
   * nothing when it passed; otherwise `next()`, which posts a delayed
   * `runQueue` in the paced mode and pops the head in the immediate mode.
   * `stop` is false only when the popped queue still holds a request.
   */
  predicate Advanced(passed: bool, delay: Option<int>, q: seq<Request>, pending0: seq<Pending>,
                     stop: bool, q': seq<Request>, pending': seq<Pending>)
  {
    if passed then stop && q' == q && pending' == pending0
    else if delay.Some? then stop && q' == q && pending' == pending0 + Posted(delay)
    else if |q| <= 1 then stop && q' == [] && pending' == pending0
    else !stop && q' == q[1..] && pending' == pending0
  }

  /**
   * One round of `startExecutor` that ends it: after the head of `q` is
   * dispatched and `next()` has run, the drain `d0` is complete.
   */
  lemma HeadStepEnds(d0: QueueSpec.DrainResult, q: seq<Request>, gatt: Option<Session>, delay: Option<int>,
                  events: seq<Event>, made: seq<TransportCall>, ls: set<Listener>,
                  log0: seq<Delivery>, calls0: seq<TransportCall>, pending0: seq<Pending>,
                  log: seq<Delivery>, calls: seq<TransportCall>, passed: bool,
                  stop: bool, q': seq<Request>, pending': seq<Pending>)
    requires Resumes(d0, q, gatt, delay, events, made)
    requires Dispatched(q[0], gatt, ls, log0 + Deliveries(events, ls), log, calls0 + made, calls, passed)
    requires Advanced(passed, delay, q, pending0, stop, q', pending')
    requires stop
    ensures Outcome(d0, ls, log0, calls0, pending0, q', log, calls, pending')
  {
    if passed {
      HeadPassed(d0, q, gatt, delay, events, made, ls, log0, calls0, pending0, log, calls, passed, stop, q', pending');
    } else if delay.Some? {
      HeadPaced(d0, q, gatt, delay, events, made, ls, log0, calls0, pending0, log, calls, passed, stop, q', pending');
    } else {
      HeadEmptied(d0, q, gatt, delay, events, made, ls, log0, calls0, pending0, log, calls, passed, stop, q', pending');
    }
  }

  /** The head passed: the drain stops with the queue as it is. */
  lemma HeadPassed(d0: QueueSpec.DrainResult, q: seq<Request>, gatt: Option<Session>, delay: Option<int>,
                  events: seq<Event>, made: seq<TransportCall>, ls: set<Listener>,
                  log0: seq<Delivery>, calls0: seq<TransportCall>, pending0: seq<Pending>,
                  log: seq<Delivery>, calls: seq<TransportCall>, passed: bool,
                  stop: bool, q': seq<Request>, pending': seq<Pending>)
    requires Resumes(d0, q, gatt, delay, events, made)
    requires Dispatched(q[0], gatt, ls, log0 + Deliveries(events, ls), log, calls0 + made, calls, passed)
    requires Advanced(passed, delay, q, pending0, stop, q', pending')
    requires passed
    ensures Outcome(d0, ls, log0, calls0, pending0, q', log, calls, pending')
  {
    var e := DispatchEffect(q[0], gatt);
    var events', made' := events + EventsOf(q[0].kind, e), made + e.calls;
    HeadLogged(q[0], gatt, ls, log0, calls0, events, made, log, calls, passed);
    ResumeAfterHead(d0, q, gatt, delay, events, made);
    assert d0 == QueueSpec.DrainResult(q, events', made', None);
    assert pending' == pending0 + Posted(None);
  }

  /** The head was rejected in the paced mode: a delayed `runQueue` is posted. */
  lemma HeadPaced(d0: QueueSpec.DrainResult, q: seq<Request>, gatt: Option<Session>, delay: Option<int>,
                  events: seq<Event>, made: seq<TransportCall>, ls: set<Listener>,
                  log0: seq<Delivery>, calls0: seq<TransportCall>, pending0: seq<Pending>,
                  log: seq<Delivery>, calls: seq<TransportCall>, passed: bool,
                  stop: bool, q': seq<Request>, pending': seq<Pending>)
    requires Resumes(d0, q, gatt, delay, events, made)
    requires Dispatched(q[0], gatt, ls, log0 + Deliveries(events, ls), log, calls0 + made, calls, passed)
    requires Advanced(passed, delay, q, pending0, stop, q', pending')
    requires !passed && delay.Some?
    ensures Outcome(d0, ls, log0, calls0, pending0, q', log, calls, pending')
  {
    var e := DispatchEffect(q[0], gatt);
    var events', made' := events + EventsOf(q[0].kind, e), made + e.calls;
    HeadLogged(q[0], gatt, ls, log0, calls0, events, made, log, calls, passed);
    ResumeAfterHead(d0, q, gatt, delay, events, made);
    assert d0 == QueueSpec.DrainResult(q, events', made', delay);
    assert pending' == pending0 + Posted(delay);
  }

  /** The last request was rejected in the immediate mode: the queue is emptied. */
  lemma HeadEmptied(d0: QueueSpec.DrainResult, q: seq<Request>, gatt: Option<Session>, delay: Option<int>,
                  events: seq<Event>, made: seq<TransportCall>, ls: set<Listener>,
                  log0: seq<Delivery>, calls0: seq<TransportCall>, pending0: seq<Pending>,
                  log: seq<Delivery>, calls: seq<TransportCall>, passed: bool,
                  stop: bool, q': seq<Request>, pending': seq<Pending>)
    requires Resumes(d0, q, gatt, delay, events, made)
    requires Dispatched(q[0], gatt, ls, log0 + Deliveries(events, ls), log, calls0 + made, calls, passed)
    requires Advanced(passed, delay, q, pending0, stop, q', pending')
    requires stop && !passed && delay.None?
    ensures Outcome(d0, ls, log0, calls0, pending0, q', log, calls, pending')
  {
    var e := DispatchEffect(q[0], gatt);
    var events', made' := events + EventsOf(q[0].kind, e), made + e.calls;
    HeadLogged(q[0], gatt, ls, log0, calls0, events, made, log, calls, passed);
    ResumeAfterHead(d0, q, gatt, delay, events, made);
    assert |q| == 1;
    assert d0 == QueueSpec.DrainResult([], events', made', None);
    assert pending' == pending0 + Posted(None);
  }

  /** The dispatch of `r` extends what a drain has reported and called so far. */
  lemma HeadLogged(r: Request, gatt: Option<Session>, ls: set<Listener>,
                   log0: seq<Delivery>, calls0: seq<TransportCall>, events: seq<Event>, made: seq<TransportCall>,
                   log: seq<Delivery>, calls: seq<TransportCall>, passed: bool)
    requires Dispatched(r, gatt, ls, log0 + Deliveries(events, ls), log, calls0 + made, calls, passed)
    ensures var e := DispatchEffect(r, gatt);
      log == log0 + Deliveries(events + EventsOf(r.kind, e), ls) && calls == calls0 + (made + e.calls)
  {
    var e := DispatchEffect(r, gatt);
    LogExtends(log0, events, EventsOf(r.kind, e), ls);
    assert (calls0 + made) + e.calls == calls0 + (made + e.calls);
  }

  /**
   * One round of `startExecutor` that does not end it: the rejected head was popped and the drain resumes from the
   * shorter queue, with the head's failure and calls added.
   */
  lemma HeadStepResumes(d0: QueueSpec.DrainResult, q: seq<Request>, gatt: Option<Session>, delay: Option<int>,
                  events: seq<Event>, made: seq<TransportCall>, ls: set<Listener>,
                  log0: seq<Delivery>, calls0: seq<TransportCall>, pending0: seq<Pending>,
                  log: seq<Delivery>, calls: seq<TransportCall>, passed: bool,
                  stop: bool, q': seq<Request>, pending': seq<Pending>)
    requires Resumes(d0, q, gatt, delay, events, made)
    requires Dispatched(q[0], gatt, ls, log0 + Deliveries(events, ls), log, calls0 + made, calls, passed)
    requires Advanced(passed, delay, q, pending0, stop, q', pending')
    requires !stop
    ensures var e := DispatchEffect(q[0], gatt);
      var events', made' := events + EventsOf(q[0].kind, e), made + e.calls;
      && Resumes(d0, q', gatt, delay, events', made') && |q'| < |q|
      && log == log0 + Deliveries(events', ls) && calls == calls0 + made' && pending' == pending0
  {
    var e := DispatchEffect(q[0], gatt);
    HeadLogged(q[0], gatt, ls, log0, calls0, events, made, log, calls, passed);
    ResumeAfterHead(d0, q, gatt, delay, events, made);
  }

  /**
   * What a run of queue operations has done so far: the queue it left, the
   * events it reported, the transport calls it made and the delayed
   * actions it posted.
   */
  datatype Run = Run(queue: seq<Request>, events: seq<Event>, calls: seq<TransportCall>, posted: seq<Pending>)

  /**
   * One UUID of an enable operation: a failure when the service does not
   * hold it, otherwise `addRequest` of its request on the queue as it is.
   */
  function EnableStep(k: RequestKind, enable: bool, uuid: Uuid, table: ServiceTable,
                      gatt: Option<Session>, delay: Option<int>, r: Run): Run
  {
    if uuid !in table then r.(events := r.events + [FailureFor(k, NoCharacteristic)])
    else
      var d := QueueSpec.AddRequest(r.queue, Request(k, Some(table[uuid]), enable), gatt, delay);
      Run(d.rest, r.events + d.events, r.calls + d.calls, r.posted + Posted(d.posted))
  }

  /** The UUIDs of an enable operation handled in order, starting from `start`. */
  function EnableRun(k: RequestKind, enable: bool, uuids: seq<Uuid>, table: ServiceTable,
                     gatt: Option<Session>, delay: Option<int>, start: Run): Run
  {
    if uuids == [] then start
    else EnableStep(k, enable, uuids[|uuids| - 1], table, gatt, delay,
                    EnableRun(k, enable, uuids[..|uuids| - 1], table, gatt, delay, start))
  }

  /** One UUID handled while the queue is busy: a request appended, or a failure reported. */
  lemma EnableStepWhileBusy(k: RequestKind, enable: bool, uuid: Uuid, table: ServiceTable,
                            gatt: Option<Session>, delay: Option<int>, r: Run)
    requires r.queue != []
    ensures EnableStep(k, enable, uuid, table, gatt, delay, r)
         == Run(r.queue + (if uuid in table then [Request(k, Some(table[uuid]), enable)] else []),
                r.events + MissingEvent(k, uuid, table), r.calls, r.posted)
  {
    if uuid in table {
      var req := Request(k, Some(table[uuid]), enable);
      assert QueueSpec.AddRequest(r.queue, req, gatt, delay) == QueueSpec.Idle(r.queue + [req]);
      assert r.events + [] == r.events && r.calls + [] == r.calls && r.posted + [] == r.posted;
    }
  }

  /**
   * While the queue is busy an enable operation dispatches nothing: it
   * appends the requests of the UUIDs the service holds, in order, and
   * reports one failure per UUID it does not hold.
   */
  lemma {:induction false} EnableRunWhileBusy(k: RequestKind, enable: bool, uuids: seq<Uuid>, table: ServiceTable,
                                               gatt: Option<Session>, delay: Option<int>, start: Run)
    requires start.queue != []
    ensures EnableRun(k, enable, uuids, table, gatt, delay, start)
         == Run(start.queue + ResolvedRequests(k, enable, uuids, table),
                start.events + MissingEvents(k, uuids, table), start.calls, start.posted)
  {
    if uuids != [] {
      var init, last := uuids[..|uuids| - 1], uuids[|uuids| - 1];
      EnableRunWhileBusy(k, enable, init, table, gatt, delay, start);
      var rs, es := ResolvedRequests(k, enable, init, table), MissingEvents(k, init, table);
      var prev := Run(start.queue + rs, start.events + es, start.calls, start.posted);
      EnableStepWhileBusy(k, enable, last, table, gatt, delay, prev);
      var more := if last in table then [Request(k, Some(table[last]), enable)] else [];
      Regroup(start, rs, more, es, MissingEvent(k, last, table));
    }
  }

  /** `e` is a failure callback of kind `k`, for some reason. */
  predicate FailureOfKind(k: RequestKind, e: Event)
  {
    exists why: Reason :: e == FailureFor(k, why)
  }

  /**
   * What an enable operation of kind `k` that started on an idle queue has
   * left after `n` UUIDs whose requests are `rs`:
   *  - a suffix of `rs` is still queued, and every request dropped before it
   *    was rejected by its checks;
   *  - every event is a failure of kind `k`, and there is one failure or one
   *    queued request per UUID (a request rejected in the paced mode gives
   *    both, and schedules the one `runQueue`);
   *  - one operation is in flight exactly when the queue is non-empty with
   *    nothing scheduled, and then the head passed its checks.
   */
  predicate FromIdle(k: RequestKind, gatt: Option<Session>, r: Run, rs: seq<Request>, n: int)
  {
    && |r.queue| <= |rs| && r.queue == rs[|rs| - |r.queue|..]
    && (forall j :: 0 <= j < |rs| - |r.queue| ==> !DispatchEffect(rs[j], gatt).Passed())
    && (forall i :: 0 <= i < |r.events| ==> FailureOfKind(k, r.events[i]))
    && |r.events| + |r.queue| == n + |r.posted|
    && |r.posted| <= 1 && (r.posted != [] ==> r.queue != [])
    && AirborneCount(r.calls) == (if r.queue != [] && r.posted == [] then 1 else 0)
    && (r.queue != [] && r.posted == [] ==> DispatchEffect(r.queue[0], gatt).Passed())
  }

  /** An enable operation on an idle queue keeps `FromIdle` for the UUIDs it has handled. */
  lemma EnableRunFromIdle(k: RequestKind, enable: bool, uuids: seq<Uuid>, table: ServiceTable,
                          gatt: Option<Session>, delay: Option<int>)
    ensures var r := EnableRun(k, enable, uuids, table, gatt, delay, Run([], [], [], []));
      var rs := ResolvedRequests(k, enable, uuids, table);
      && |r.queue| <= |rs| && r.queue == rs[|rs| - |r.queue|..]
      && (forall j :: 0 <= j < |rs| - |r.queue| ==> !DispatchEffect(rs[j], gatt).Passed())
      && (forall i :: 0 <= i < |r.events| ==> FailureOfKind(k, r.events[i]))
      && |r.events| + |r.queue| == |uuids| + |r.posted|
      && |r.posted| <= 1 && (r.posted != [] ==> r.queue != [])
      && AirborneCount(r.calls) == (if r.queue != [] && r.posted == [] then 1 else 0)
      && (r.queue != [] && r.posted == [] ==> DispatchEffect(r.queue[0], gatt).Passed())
  {
    FromIdleRun(k, enable, uuids, table, gatt, delay);
    FromIdleMeans(k, gatt, EnableRun(k, enable, uuids, table, gatt, delay, Run([], [], [], [])),
                  ResolvedRequests(k, enable, uuids, table), |uuids|);
  }

  /** `FromIdle`, clause by clause. */
  lemma FromIdleMeans(k: RequestKind, gatt: Option<Session>, r: Run, rs: seq<Request>, n: int)
    requires FromIdle(k, gatt, r, rs, n)
    ensures && |r.queue| <= |rs| && r.queue == rs[|rs| - |r.queue|..]
            && (forall j :: 0 <= j < |rs| - |r.queue| ==> !DispatchEffect(rs[j], gatt).Passed())
            && (forall i :: 0 <= i < |r.events| ==> FailureOfKind(k, r.events[i]))
            && |r.events| + |r.queue| == n + |r.posted|
            && |r.posted| <= 1 && (r.posted != [] ==> r.queue != [])
            && AirborneCount(r.calls) == (if r.queue != [] && r.posted == [] then 1 else 0)
            && (r.queue != [] && r.posted == [] ==> DispatchEffect(r.queue[0], gatt).Passed())
  {
  }

  /** `FromIdle` holds after every prefix of the UUIDs. */
  lemma {:induction false} FromIdleRun(k: RequestKind, enable: bool, uuids: seq<Uuid>, table: ServiceTable,
                                        gatt: Option<Session>, delay: Option<int>)
    ensures FromIdle(k, gatt, EnableRun(k, enable, uuids, table, gatt, delay, Run([], [], [], [])),
                     ResolvedRequests(k, enable, uuids, table), |uuids|)
  {
    if uuids == [] {
      FromIdleNone(k, enable, uuids, table, gatt, delay);
    } else {
      FromIdleRun(k, enable, uuids[..|uuids| - 1], table, gatt, delay);
      FromIdleLast(k, enable, uuids, table, gatt, delay);
    }
  }

  /** Before any UUID, nothing is queued, reported, sent or scheduled. */
  lemma FromIdleNone(k: RequestKind, enable: bool, uuids: seq<Uuid>, table: ServiceTable,
                     gatt: Option<Session>, delay: Option<int>)
    requires uuids == []
    ensures FromIdle(k, gatt, EnableRun(k, enable, uuids, table, gatt, delay, Run([], [], [], [])),
                     ResolvedRequests(k, enable, uuids, table), |uuids|)
  {
    assert EnableRun(k, enable, uuids, table, gatt, delay, Run([], [], [], [])) == Run([], [], [], []);
  }

  /** If `FromIdle` holds before the last UUID, it holds after it. */
  lemma FromIdleLast(k: RequestKind, enable: bool, uuids: seq<Uuid>, table: ServiceTable,
                     gatt: Option<Session>, delay: Option<int>)
    requires uuids != []
    requires FromIdle(k, gatt, EnableRun(k, enable, uuids[..|uuids| - 1], table, gatt, delay, Run([], [], [], [])),
                      ResolvedRequests(k, enable, uuids[..|uuids| - 1], table), |uuids| - 1)
    ensures FromIdle(k, gatt, EnableRun(k, enable, uuids, table, gatt, delay, Run([], [], [], [])),
                     ResolvedRequests(k, enable, uuids, table), |uuids|)
  {
    var init, last := uuids[..|uuids| - 1], uuids[|uuids| - 1];
    assert EnableRun(k, enable, uuids, table, gatt, delay, Run([], [], [], []))
        == EnableStep(k, enable, last, table, gatt, delay, EnableRun(k, enable, init, table, gatt, delay, Run([], [], [], [])));
    assert ResolvedRequests(k, enable, uuids, table)
        == ResolvedRequests(k, enable, init, table) + (if last in table then [Request(k, Some(table[last]), enable)] else []);
    FromIdleStep(k, enable, last, table, gatt, delay,
                 EnableRun(k, enable, init, table, gatt, delay, Run([], [], [], [])),
                 ResolvedRequests(k, enable, init, table), |uuids| - 1,
                 EnableRun(k, enable, uuids, table, gatt, delay, Run([], [], [], [])),
                 ResolvedRequests(k, enable, uuids, table), |uuids|);
  }

  /** One more UUID keeps `FromIdle`, with its request added when the service holds it. */
  lemma FromIdleStep(k: RequestKind, enable: bool, uuid: Uuid, table: ServiceTable,
                     gatt: Option<Session>, delay: Option<int>, r: Run, rs: seq<Request>, n: int,
                     r': Run, rs': seq<Request>, n': int)
    requires FromIdle(k, gatt, r, rs, n) && n' == n + 1
    requires r' == EnableStep(k, enable, uuid, table, gatt, delay, r)
    requires rs' == rs + (if uuid in table then [Request(k, Some(table[uuid]), enable)] else [])
    ensures FromIdle(k, gatt, r', rs', n')
  {
    if uuid in table {
      var req := Request(k, Some(table[uuid]), enable);
      if r.queue == [] {
        var d := QueueSpec.Drain([req], gatt, delay);
        IdleStep(req, gatt, delay);
        assert r' == Run(d.rest, r.events + d.events, r.calls + d.calls, r.posted + Posted(d.posted));
        FromIdleDispatch(k, gatt, req, d, r, rs, n, r', rs', n');
      } else {
        EnableStepWhileBusy(k, enable, uuid, table, gatt, delay, r);
        FromIdleAppend(k, gatt, req, r, rs, n, r', rs', n');
      }
    } else {
      FromIdleMissing(k, gatt, r, rs, n, r', rs', n');
    }
  }

  /** A UUID the service lacks adds its failure and nothing else. */
  lemma FromIdleMissing(k: RequestKind, gatt: Option<Session>, r: Run, rs: seq<Request>, n: int,
                        r': Run, rs': seq<Request>, n': int)
    requires FromIdle(k, gatt, r, rs, n) && n' == n + 1 && rs' == rs
    requires r' == r.(events := r.events + [FailureFor(k, NoCharacteristic)])
    ensures FromIdle(k, gatt, r', rs', n')
  {
    assert FailureOfKind(k, FailureFor(k, NoCharacteristic));
  }

  /** A request reaching an empty queue is dispatched at once, with the outcome `d`. */
  lemma FromIdleDispatch(k: RequestKind, gatt: Option<Session>, req: Request, d: QueueSpec.DrainResult,
                         r: Run, rs: seq<Request>, n: int, r': Run, rs': seq<Request>, n': int)
    requires FromIdle(k, gatt, r, rs, n) && r.queue == [] && n' == n + 1 && rs' == rs + [req] && req.kind == k
    requires && (d.rest == [] || d.rest == [req])
             && |d.events| + |d.rest| == 1 + |Posted(d.posted)|
             && (d.posted.Some? ==> d.rest != [])
             && AirborneCount(d.calls) == (if d.rest != [] && d.posted.None? then 1 else 0)
             && (d.events == if DispatchEffect(req, gatt).Passed() then []
                             else [FailureFor(req.kind, DispatchEffect(req, gatt).failure.value)])
             && (d.rest == [] ==> !DispatchEffect(req, gatt).Passed())
             && (d.rest != [] && d.posted.None? ==> DispatchEffect(req, gatt).Passed())
    requires r' == Run(d.rest, r.events + d.events, r.calls + d.calls, r.posted + Posted(d.posted))
    ensures FromIdle(k, gatt, r', rs', n')
  {
    AirborneAppend(r.calls, d.calls);
    if d.events != [] {
      assert FailureOfKind(k, d.events[0]);
    }
    FailuresAppend(k, r.events, d.events);
    assert |r'.queue| <= |rs'| && r'.queue == rs'[|rs'| - |r'.queue|..];
    assert forall j :: 0 <= j < |rs'| - |r'.queue| ==> !DispatchEffect(rs'[j], gatt).Passed() by {
      assert forall j :: 0 <= j < |rs| ==> rs'[j] == rs[j];
    }
  }

  /** Failures of kind `k` followed by failures of kind `k` are failures of kind `k`. */
  lemma FailuresAppend(k: RequestKind, a: seq<Event>, b: seq<Event>)
    requires forall i :: 0 <= i < |a| ==> FailureOfKind(k, a[i])
    requires forall i :: 0 <= i < |b| ==> FailureOfKind(k, b[i])
    ensures forall i :: 0 <= i < |a + b| ==> FailureOfKind(k, (a + b)[i])
  {
    forall i | 0 <= i < |a + b|
      ensures FailureOfKind(k, (a + b)[i])
    {
      if i >= |a| {
        assert (a + b)[i] == b[i - |a|];
      }
    }
  }

  /** A request reaching a busy queue is appended and nothing is dispatched. */
  lemma FromIdleAppend(k: RequestKind, gatt: Option<Session>, req: Request, r: Run, rs: seq<Request>, n: int,
                       r': Run, rs': seq<Request>, n': int)
    requires FromIdle(k, gatt, r, rs, n) && r.queue != [] && n' == n + 1 && rs' == rs + [req]
    requires r' == Run(r.queue + [req], r.events, r.calls, r.posted)
    ensures FromIdle(k, gatt, r', rs', n')
  {
    assert (rs + [req])[|rs| + 1 - |r.queue + [req]|..] == rs[|rs| - |r.queue|..] + [req];
    assert forall j :: 0 <= j < |rs| - |r.queue| ==> rs'[j] == rs[j];
  }

  /**
   * Dispatching a single request from an empty queue: it stays in flight
   * having passed its checks, or it is rejected with one failure of its kind
   * and removed, or kept with `runQueue` scheduled in the paced mode.
   */
  lemma IdleStep(req: Request, gatt: Option<Session>, delay: Option<int>)
    ensures var d := QueueSpec.Drain([req], gatt, delay);
      && (d.rest == [] || d.rest == [req])
      && |d.events| + |d.rest| == 1 + |Posted(d.posted)|
      && (d.posted.Some? ==> d.rest != [])
      && AirborneCount(d.calls) == (if d.rest != [] && d.posted.None? then 1 else 0)
      && (d.events == if DispatchEffect(req, gatt).Passed() then []
                      else [FailureFor(req.kind, DispatchEffect(req, gatt).failure.value)])
      && (d.rest == [] ==> !DispatchEffect(req, gatt).Passed())
      && (d.rest != [] && d.posted.None? ==> DispatchEffect(req, gatt).Passed())
  {
    DispatchAirborne(req, gatt);
  }

  /** Appending to a run's queue and events in two steps is appending the concatenations. */
  lemma Regroup(start: Run, rs: seq<Request>, more: seq<Request>, es: seq<Event>, me: seq<Event>)
    ensures Run((start.queue + rs) + more, (start.events + es) + me, start.calls, start.posted)
         == Run(start.queue + (rs + more), start.events + (es + me), start.calls, start.posted)
  {
    assert (start.queue + rs) + more == start.queue + (rs + more);
    assert (start.events + es) + me == start.events + (es + me);
  }

  /** The queue and the logs are as the run `r` says, starting from the given old values. */
  predicate RunApplied(r: Run, ls: set<Listener>,
                       log0: seq<Delivery>, calls0: seq<TransportCall>, pending0: seq<Pending>,
                       queue: seq<Request>, log: seq<Delivery>, calls: seq<TransportCall>, pending: seq<Pending>)
  {
    && queue == r.queue
    && log == log0 + Deliveries(r.events, ls)
    && calls == calls0 + r.calls
    && pending == pending0 + r.posted
  }

  /** A UUID the service does not hold adds its failure to the run. */
  lemma EnabledMissing(k: RequestKind, enable: bool, uuid: Uuid, table: ServiceTable,
                       gatt: Option<Session>, delay: Option<int>, r: Run, ls: set<Listener>,
                       log0: seq<Delivery>, calls0: seq<TransportCall>, pending0: seq<Pending>,
                       queue: seq<Request>, log: seq<Delivery>, calls: seq<TransportCall>, pending: seq<Pending>,
                       log': seq<Delivery>)
    requires uuid !in table
    requires RunApplied(r, ls, log0, calls0, pending0, queue, log, calls, pending)
    requires log' == log + Deliveries([FailureFor(k, NoCharacteristic)], ls)
    ensures RunApplied(EnableStep(k, enable, uuid, table, gatt, delay, r), ls, log0, calls0, pending0, queue, log', calls, pending)
  {
    LogExtends(log0, r.events, [FailureFor(k, NoCharacteristic)], ls);
  }

  /** A UUID the service holds adds what `addRequest` of its request did to the run. */
  lemma EnabledFound(k: RequestKind, enable: bool, uuid: Uuid, table: ServiceTable,
                     gatt: Option<Session>, delay: Option<int>, r: Run, ls: set<Listener>,
                     log0: seq<Delivery>, calls0: seq<TransportCall>, pending0: seq<Pending>,
                     queue: seq<Request>, log: seq<Delivery>, calls: seq<TransportCall>, pending: seq<Pending>,
                     queue': seq<Request>, log': seq<Delivery>, calls': seq<TransportCall>, pending': seq<Pending>)
    requires uuid in table
    requires RunApplied(r, ls, log0, calls0, pending0, queue, log, calls, pending)
    requires Outcome(QueueSpec.AddRequest(queue, Request(k, Some(table[uuid]), enable), gatt, delay), ls,
                     log, calls, pending, queue', log', calls', pending')
    ensures RunApplied(EnableStep(k, enable, uuid, table, gatt, delay, r), ls, log0, calls0, pending0,
                       queue', log', calls', pending')
  {
    assert r.queue == queue;
    var d := QueueSpec.AddRequest(r.queue, Request(k, Some(table[uuid]), enable), gatt, delay);
    assert EnableStep(k, enable, uuid, table, gatt, delay, r)
        == Run(d.rest, r.events + d.events, r.calls + d.calls, r.posted + Posted(d.posted));
    RunExtends(r, d, ls, log0, calls0, pending0, queue, log, calls, pending, queue', log', calls', pending');
  }

  /** A run followed by one more queue operation `d` is the run extended by `d`. */
  lemma RunExtends(r: Run, d: QueueSpec.DrainResult, ls: set<Listener>,
                   log0: seq<Delivery>, calls0: seq<TransportCall>, pending0: seq<Pending>,
                   queue: seq<Request>, log: seq<Delivery>, calls: seq<TransportCall>, pending: seq<Pending>,
                   queue': seq<Request>, log': seq<Delivery>, calls': seq<TransportCall>, pending': seq<Pending>)
    requires RunApplied(r, ls, log0, calls0, pending0, queue, log, calls, pending)
    requires Outcome(d, ls, log, calls, pending, queue', log', calls', pending')
    ensures RunApplied(Run(d.rest, r.events + d.events, r.calls + d.calls, r.posted + Posted(d.posted)),
                       ls, log0, calls0, pending0, queue', log', calls', pending')
  {
    LogExtends(log0, r.events, d.events, ls);
    assert calls' == (calls0 + r.calls) + d.calls == calls0 + (r.calls + d.calls);
    assert pending' == (pending0 + r.posted) + Posted(d.posted) == pending0 + (r.posted + Posted(d.posted));
  }

  class BleManager {
    // configuration
    var retryConnectEnable: bool
    var retryConnectCount: int
    var connectTimeoutMillis: int
    var serviceTimeoutMillis: int
    var queueDelayTime: int
    var enableQueueDelay: bool
    var readRssiIntervalMillisecond: int

    // the link
    var connected: bool
    var serviceDiscovered: bool
    var gatt: Option<Session>
    var autoConnect: bool
    var device: Option<Device>
    var connParameters: Option<ConnParameters>
    var autoQueueInterval: int

    // the RSSI poller: timers still running (an unreferenced one keeps
    // running) and whether the controller still holds the current one
    var isReadRssi: bool
    var rssiTimers: nat
    var rssiTracked: bool

    var queue: seq<Request>
    var listeners: set<Listener>

    // what the environment observes
    var log: seq<Delivery>
    var calls: seq<TransportCall>
    var pending: seq<Pending>

    ghost predicate Valid()
      reads this
    {
      rssiTracked ==> rssiTimers > 0
    }

    /**
     * The source starts `connParameters` as an empty parameters object; the
     * model starts it as `None`, the state before any parameter read.
     */
    constructor ()
      ensures Valid()
      ensures !retryConnectEnable && retryConnectCount == 1
      ensures connectTimeoutMillis == 0 && serviceTimeoutMillis == 0
      ensures queueDelayTime == 0 && !enableQueueDelay && readRssiIntervalMillisecond == 1000
      ensures !connected && !serviceDiscovered && gatt.None? && device.None?
      ensures connParameters.None? && autoQueueInterval == InitialAutoQueueInterval
      ensures !isReadRssi && rssiTimers == 0 && !rssiTracked
      ensures queue == [] && listeners == {} && log == [] && calls == [] && pending == []
    {
      retryConnectEnable, retryConnectCount := false, 1;
      connectTimeoutMillis, serviceTimeoutMillis := 0, 0;
      queueDelayTime, enableQueueDelay := 0, false;
      readRssiIntervalMillisecond := 1000;
      connected, serviceDiscovered, gatt := false, false, None;
      autoConnect, device := false, None;
      connParameters, autoQueueInterval := None, InitialAutoQueueInterval;
      isReadRssi, rssiTimers, rssiTracked := false, 0, false;
      queue, listeners := [], {};
      log, calls, pending := [], [], [];
    }

    /** The pacing `next()` applies now. */
    function Delay(): Option<int>
      reads this`enableQueueDelay, this`queueDelayTime, this`autoQueueInterval
    {
      NextDelay(enableQueueDelay, queueDelayTime, autoQueueInterval)
    }

    /** The queue and the logs are as `d` says, starting from the given old values. */
    ghost predicate Applied(log0: seq<Delivery>, calls0: seq<TransportCall>, pending0: seq<Pending>,
                            d: QueueSpec.DrainResult)
      reads this
    {
      Outcome(d, listeners, log0, calls0, pending0, queue, log, calls, pending)
    }

    // ---------------------------------------------------------------- configuration

    method SetConfig(delayTime: int, enableDelay: bool)
      modifies this`queueDelayTime, this`enableQueueDelay
      ensures queueDelayTime == delayTime && enableQueueDelay == enableDelay
    {
      queueDelayTime := delayTime;
      enableQueueDelay := enableDelay;
    }

    method SetRetryConnectEnable(enable: bool)
      modifies this`retryConnectEnable
      ensures retryConnectEnable == enable
    {
      retryConnectEnable := enable;
    }

    method SetConnectTimeoutMillis(millis: int)
      modifies this`connectTimeoutMillis
      ensures connectTimeoutMillis == millis
    {
      connectTimeoutMillis := millis;
    }

    method SetServiceTimeoutMillis(millis: int)
      modifies this`serviceTimeoutMillis
      ensures serviceTimeoutMillis == millis
    {
      serviceTimeoutMillis := millis;
    }

    method SetRetryConnectCount(count: int)
      modifies this`retryConnectCount
      ensures retryConnectCount == count
    {
      retryConnectCount := count;
    }

    method SetReadRssiIntervalMillisecond(millis: int)
      modifies this`readRssiIntervalMillisecond
      ensures readRssiIntervalMillisecond == millis
    {
      readRssiIntervalMillisecond := millis;
    }

    // ---------------------------------------------------------------- listener registry

    /** Delivers an event to every listener implementing its interface. */
    method Emit(e: Event)
      modifies this`log
      ensures log == old(log) + Deliveries([e], listeners)
    {
      log := log + [Delivery(e, Recipients(listeners, CapabilityOf(e)))];
    }

    method AddLeListener(l: Listener) returns (added: bool)
      modifies this`listeners
      ensures added <==> l !in old(listeners)
      ensures listeners == old(listeners) + {l}
    {
      added := l !in listeners;
      listeners := listeners + {l};
    }

    /** Removes every listener whose tag is the given tag object; all others stay. */
    method CancelTag(t: Tag)
      modifies this`listeners
      ensures listeners == old(listeners) - Tagged(old(listeners), t)
      ensures forall l :: l in listeners <==> l in old(listeners) && l.tag != t
    {
      var list: seq<Listener> := [];
      var remaining := listeners;
      while remaining != {}
        invariant remaining <= listeners
        invariant forall l :: l in list <==> l in listeners - remaining && l.tag == t
        decreases remaining
      {
        var l :| l in remaining;
        if l.tag == t {
          list := list + [l];
        }
        remaining := remaining - {l};
      }
      CancelTagList(list);
    }

    /** Removes the listeners of a list one by one, front first. */
    method CancelTagList(list: seq<Listener>)
      modifies this`listeners
      ensures listeners == old(listeners) - (set l | l in list)
    {
      for i := 0 to |list|
        invariant listeners == old(listeners) - (set j | 0 <= j < i :: list[j])
      {
        listeners := listeners - {list[i]};
      }
      assert (set j | 0 <= j < |list| :: list[j]) == (set l | l in list);
    }

    /** `destroy(tag)` cancels the tag. */
    method Destroy(t: Tag)
      modifies this`listeners
      ensures listeners == old(listeners) - Tagged(old(listeners), t)
    {
      CancelTag(t);
    }

    method CancelAllTag()
      modifies this`listeners
      ensures listeners == {}
    {
      listeners := {};
    }

    // ---------------------------------------------------------------- dispatchers

    method Write2Characteristic(c: Option<Characteristic>) returns (passed: bool)
      modifies this`log, this`calls
      ensures Dispatched(Request(Write, c, false), gatt, listeners, old(log), log, old(calls), calls, passed)
    {
      if gatt.None? {
        Emit(WriteFailed(LocalErrorCode, NoSession));
        return false;
      }
      if c.None? {
        Emit(WriteFailed(LocalErrorCode, NullCharacteristic));
        return false;
      }
      if !Supports(c.value.properties, Write) {
        Emit(WriteFailed(LocalErrorCode, Unsupported));
        return false;
      }
      calls := calls + [TransportCall.WriteCharacteristic(gatt.value, c.value)];
      return true;
    }

    method Read2Characteristic(c: Option<Characteristic>) returns (passed: bool)
      modifies this`log, this`calls
      ensures Dispatched(Request(Read, c, false), gatt, listeners, old(log), log, old(calls), calls, passed)
    {
      if gatt.None? {
        Emit(ReadFailure(LocalErrorCode, NoSession));
        return false;
      }
      if c.None? {
        Emit(ReadFailure(LocalErrorCode, NullCharacteristic));
        return false;
      }
      if !Supports(c.value.properties, Read) {
        Emit(ReadFailure(LocalErrorCode, Unsupported));
        return false;
      }
      calls := calls + [TransportCall.ReadCharacteristic(gatt.value, c.value)];
      return true;
    }

    method EnableNotification(enable: bool, c: Option<Characteristic>) returns (passed: bool)
      modifies this`log, this`calls
      ensures Dispatched(Request(RequestKind.EnableNotifications, c, enable), gatt, listeners, old(log), log, old(calls), calls, passed)
    {
      passed := EnableConfiguration(RequestKind.EnableNotifications, enable, c);
    }

    method EnableIndication(enable: bool, c: Option<Characteristic>) returns (passed: bool)
      modifies this`log, this`calls
      ensures Dispatched(Request(EnableIndications, c, enable), gatt, listeners, old(log), log, old(calls), calls, passed)
    {
      passed := EnableConfiguration(EnableIndications, enable, c);
    }

    /** The common body of the notification and indication dispatchers. */
    method EnableConfiguration(k: RequestKind, enable: bool, c: Option<Characteristic>) returns (passed: bool)
      requires k == RequestKind.EnableNotifications || k == EnableIndications
      modifies this`log, this`calls
      ensures Dispatched(Request(k, c, enable), gatt, listeners, old(log), log, old(calls), calls, passed)
    {
      if gatt.None? {
        Emit(FailureFor(k, NoSession));
        return false;
      }
      if c.None? {
        Emit(FailureFor(k, NullCharacteristic));
        return false;
      }
      if !Supports(c.value.properties, k) {
        Emit(FailureFor(k, Unsupported));
        return false;
      }
      calls := calls + [SetCharacteristicNotification(gatt.value, c.value, enable)];
      if c.value.cccd.Descriptor? {
        calls := calls + [WriteDescriptor(gatt.value, c.value, DescriptorValueFor(k))];
        return true;
      } else {
        Emit(FailureFor(k, MissingDescriptor));
        return false;
      }
    }

    // ---------------------------------------------------------------- request queue

    /** Dispatches the head by its kind. */
    method Dispatch(r: Request) returns (passed: bool)
      modifies this`log, this`calls
      ensures Dispatched(r, gatt, listeners, old(log), log, old(calls), calls, passed)
    {
      match r.kind {
        case Write =>
          passed := Write2Characteristic(r.characteristic);
          assert DispatchEffect(r, gatt) == DispatchEffect(Request(Write, r.characteristic, false), gatt);
        case Read =>
          passed := Read2Characteristic(r.characteristic);
          assert DispatchEffect(r, gatt) == DispatchEffect(Request(Read, r.characteristic, false), gatt);
        case EnableNotifications =>
          passed := EnableNotification(r.enable, r.characteristic);
        case EnableIndications =>
          passed := EnableIndication(r.enable, r.characteristic);
      }
    }

    /**
     * `startExecutor`, together with the `next()` a rejected head calls: in
     * the immediate mode a rejected head is popped and the new head
     * dispatched, until one passes or the queue is empty.
     */
    method StartExecutor()
      requires queue != []
      modifies this`queue, this`log, this`calls, this`pending
      ensures Applied(old(log), old(calls), old(pending), QueueSpec.Drain(old(queue), gatt, Delay()))
    {
      ghost var delay := Delay();
      ghost var d0 := QueueSpec.Drain(queue, gatt, delay);
      assert d0.events == [] + d0.events && d0.calls == [] + d0.calls;
      ghost var events: seq<Event> := [];
      ghost var made: seq<TransportCall> := [];
      while true
        invariant delay == Delay()
        invariant Resumes(d0, queue, gatt, delay, events, made)
        invariant log == old(log) + Deliveries(events, listeners) && calls == old(calls) + made && pending == old(pending)
        decreases |queue|
      {
        var stop;
        stop, events, made := ExecuteHead(d0, delay, events, made, old(log), old(calls), old(pending));
        if stop {
          return;
        }
      }
    }

    /** One round of `startExecutor`: dispatch the head and, if it was rejected, call `next()`. */
    method ExecuteHead(ghost d0: QueueSpec.DrainResult, ghost delay: Option<int>, ghost events: seq<Event>, ghost made: seq<TransportCall>,
                       ghost log0: seq<Delivery>, ghost calls0: seq<TransportCall>, ghost pending0: seq<Pending>)
      returns (stop: bool, ghost events': seq<Event>, ghost made': seq<TransportCall>)
      requires delay == Delay()
      requires Resumes(d0, queue, gatt, delay, events, made)
      requires log == log0 + Deliveries(events, listeners) && calls == calls0 + made && pending == pending0
      modifies this`queue, this`log, this`calls, this`pending
      ensures stop ==> Applied(log0, calls0, pending0, d0)
      ensures !stop ==> Resumes(d0, queue, gatt, delay, events', made') && |queue| < old(|queue|)
      ensures !stop ==> log == log0 + Deliveries(events', listeners) && calls == calls0 + made' && pending == pending0
    {
      ghost var q := queue;
      ghost var e := DispatchEffect(queue[0], gatt);
      events', made' := events + EventsOf(queue[0].kind, e), made + e.calls;
      var passed := Dispatch(queue[0]);
      stop := Advance(passed);
      if stop {
        HeadStepEnds(d0, q, gatt, delay, events, made, listeners, log0, calls0, pending0, log, calls, passed, stop, queue, pending);
      } else {
        HeadStepResumes(d0, q, gatt, delay, events, made, listeners, log0, calls0, pending0, log, calls, passed, stop, queue, pending);
      }
    }

    /** `next()` after a dispatch, or nothing when the dispatch passed. */
    method Advance(passed: bool) returns (stop: bool)
      modifies this`queue, this`pending
      ensures Advanced(passed, Delay(), old(queue), old(pending), stop, queue, pending)
    {
      if passed {
        return true;
      }
      var delay := Delay();
      if delay.Some? {
        pending := pending + [RunQueueAfter(delay.value)];
        return true;
      }
      if |queue| <= 1 {
        queue := [];
        return true;
      }
      queue := queue[1..];
      return false;
    }

    /** `addRequest`: append, and dispatch only when the queue was empty before. */
    method AddRequest(r: Request)
      modifies this`queue, this`log, this`calls, this`pending
      ensures Applied(old(log), old(calls), old(pending), QueueSpec.AddRequest(old(queue), r, gatt, Delay()))
    {
      var oldSize := |queue|;
      queue := queue + [r];
      if |queue| == 1 && oldSize == 0 {
        assert queue == [r];
        StartExecutor();
      } else {
        DeliveriesAppend([], [], listeners);
        assert log == old(log) + [] && calls == old(calls) + [] && pending == old(pending) + [];
      }
    }

    /** `runQueue`: remove the head, dispatch the new one if there is one. */
    method RunQueue()
      modifies this`queue, this`log, this`calls, this`pending
      ensures Applied(old(log), old(calls), old(pending), QueueSpec.RunQueue(old(queue), gatt, Delay()))
    {
      if queue != [] {
        queue := queue[1..];
      }
      if queue != [] {
        StartExecutor();
      } else {
        assert log == old(log) + [] && calls == old(calls) + [] && pending == old(pending) + [];
      }
    }

    /** `next()`: schedule `runQueue` in the paced mode, run it at once otherwise. */
    method Next()
      modifies this`queue, this`log, this`calls, this`pending
      ensures Applied(old(log), old(calls), old(pending), QueueSpec.Next(old(queue), gatt, Delay()))
    {
      var delay := Delay();
      if delay.Some? {
        pending := pending + [RunQueueAfter(delay.value)];
        assert log == old(log) + [] && calls == old(calls) + [];
      } else {
        RunQueue();
      }
    }

    /** `cancelAll`: empty the queue; nothing is dispatched, reported or scheduled. */
    method CancelAll()
      modifies this`queue
      ensures queue == []
    {
      queue := [];
    }

    // ---------------------------------------------------------------- enqueueing operations

    /** Reports one failure, or enqueues the request. */
    method EnqueueOrReport(k: RequestKind, enable: bool, res: Resolution)
      modifies this`queue, this`log, this`calls, this`pending
      ensures Applied(old(log), old(calls), old(pending), EnqueueOrFail(old(queue), gatt, Delay(), k, enable, res))
    {
      match res {
        case Unresolved(reason) =>
          Emit(FailureFor(k, reason));
          assert calls == old(calls) + [] && pending == old(pending) + [];
        case Resolved(c) =>
          AddRequest(Request(k, Some(c), enable));
      }
    }

    method WriteBytesToCharacteristic(bytes: seq<bv8>, serviceUuid: Option<Uuid>, characteristicUuid: Option<Uuid>,
                                      service: Option<ServiceTable>)
      modifies this`queue, this`log, this`calls, this`pending
      ensures Applied(old(log), old(calls), old(pending),
        EnqueueOrFail(old(queue), gatt, Delay(), Write, false,
                      ResolveWrite(gatt, serviceUuid, characteristicUuid, service, bytes)))
    {
      var res: Resolution;
      if gatt.None? {
        res := Unresolved(NoSession);
      } else if serviceUuid.None? {
        res := Unresolved(NullServiceUuid);
      } else if characteristicUuid.None? {
        res := Unresolved(NullCharacteristicUuid);
      } else if service.Some? {
        if characteristicUuid.value !in service.value {
          res := Unresolved(NoCharacteristic);
        } else {
          var c := service.value[characteristicUuid.value];
          res := Resolved(c.(value := bytes));
        }
      } else {
        res := Unresolved(NoService);
      }
      EnqueueOrReport(Write, false, res);
    }

    /** `writeCharacteristic(characteristic)`: enqueue a write of a characteristic the caller holds. */
    method WriteCharacteristic(c: Option<Characteristic>)
      modifies this`queue, this`log, this`calls, this`pending
      ensures Applied(old(log), old(calls), old(pending),
        EnqueueOrFail(old(queue), gatt, Delay(), Write, false,
                      if c.None? then Unresolved(NullCharacteristic) else Resolved(c.value)))
    {
      if c.None? {
        EnqueueOrReport(Write, false, Unresolved(NullCharacteristic));
      } else {
        EnqueueOrReport(Write, false, Resolved(c.value));
      }
    }

    method ReadCharacteristic(characteristicUuid: Uuid, service: Option<ServiceTable>)
      modifies this`queue, this`log, this`calls, this`pending
      ensures Applied(old(log), old(calls), old(pending),
        EnqueueOrFail(old(queue), gatt, Delay(), Read, false, ResolveInService(gatt, characteristicUuid, service)))
    {
      var res := ResolveInService(gatt, characteristicUuid, service);
      EnqueueOrReport(Read, false, res);
    }

    /**
     * `enableNotifications`: without a session or without the service, one
     * failure; otherwise each UUID in turn, as `EnableRun` says.
     */
    method EnableNotifications(enable: bool, uuids: seq<Uuid>, service: Option<ServiceTable>)
      modifies this`queue, this`log, this`calls, this`pending
      ensures gatt.None? ==> Applied(old(log), old(calls), old(pending),
        QueueSpec.DrainResult(old(queue), [NotificationFailed(LocalErrorCode, NoSession)], [], None))
      ensures gatt.Some? && service.None? ==> Applied(old(log), old(calls), old(pending),
        QueueSpec.DrainResult(old(queue), [NotificationFailed(LocalErrorCode, NoService)], [], None))
      ensures gatt.Some? && service.Some? ==>
        RunApplied(EnableRun(RequestKind.EnableNotifications, enable, uuids, service.value, gatt, Delay(), Run(old(queue), [], [], [])),
                   listeners, old(log), old(calls), old(pending), queue, log, calls, pending)
    {
      EnableAll(RequestKind.EnableNotifications, enable, uuids, service);
    }

    /** `enableIndicates`: the same as `enableNotifications`, for indications. */
    method EnableIndicates(enable: bool, uuids: seq<Uuid>, service: Option<ServiceTable>)
      modifies this`queue, this`log, this`calls, this`pending
      ensures gatt.None? ==> Applied(old(log), old(calls), old(pending),
        QueueSpec.DrainResult(old(queue), [IndicationFailed(LocalErrorCode, NoSession)], [], None))
      ensures gatt.Some? && service.None? ==> Applied(old(log), old(calls), old(pending),
        QueueSpec.DrainResult(old(queue), [IndicationFailed(LocalErrorCode, NoService)], [], None))
      ensures gatt.Some? && service.Some? ==>
        RunApplied(EnableRun(EnableIndications, enable, uuids, service.value, gatt, Delay(), Run(old(queue), [], [], [])),
                   listeners, old(log), old(calls), old(pending), queue, log, calls, pending)
    {
      EnableAll(EnableIndications, enable, uuids, service);
    }

    /** The common body of the two enable operations. */
    method EnableAll(k: RequestKind, enable: bool, uuids: seq<Uuid>, service: Option<ServiceTable>)
      modifies this`queue, this`log, this`calls, this`pending
      ensures gatt.None? ==> Applied(old(log), old(calls), old(pending),
        QueueSpec.DrainResult(old(queue), [FailureFor(k, NoSession)], [], None))
      ensures gatt.Some? && service.None? ==> Applied(old(log), old(calls), old(pending),
        QueueSpec.DrainResult(old(queue), [FailureFor(k, NoService)], [], None))
      ensures gatt.Some? && service.Some? ==>
        RunApplied(EnableRun(k, enable, uuids, service.value, gatt, Delay(), Run(old(queue), [], [], [])),
                   listeners, old(log), old(calls), old(pending), queue, log, calls, pending)
    {
      if gatt.None? {
        Emit(FailureFor(k, NoSession));
        assert calls == old(calls) + [] && pending == old(pending) + [];
        return;
      }
      if service.None? {
        Emit(FailureFor(k, NoService));
        assert calls == old(calls) + [] && pending == old(pending) + [];
        return;
      }
      EnableEach(k, enable, uuids, service.value);
    }

    /** The loop over the UUIDs of an enable operation, once the session and the service are known. */
    method EnableEach(k: RequestKind, enable: bool, uuids: seq<Uuid>, table: ServiceTable)
      modifies this`queue, this`log, this`calls, this`pending
      ensures RunApplied(EnableRun(k, enable, uuids, table, gatt, Delay(), Run(old(queue), [], [], [])),
                         listeners, old(log), old(calls), old(pending), queue, log, calls, pending)
    {
      ghost var start := Run(queue, [], [], []);
      assert log == log + Deliveries([], listeners) && calls == calls + [] && pending == pending + [];
      for i := 0 to |uuids|
        invariant gatt == old(gatt) && Delay() == old(Delay()) && listeners == old(listeners)
        invariant RunApplied(EnableRun(k, enable, uuids[..i], table, gatt, Delay(), start),
                             listeners, old(log), old(calls), old(pending), queue, log, calls, pending)
      {
        EnableOne(k, enable, uuids, i, table, start, old(log), old(calls), old(pending));
      }
      assert uuids[..|uuids|] == uuids;
    }

    /** One UUID of an enable operation: a failure when the service does not hold it, a request otherwise. */
    method EnableOne(k: RequestKind, enable: bool, uuids: seq<Uuid>, i: nat, table: ServiceTable, ghost start: Run,
                     ghost log0: seq<Delivery>, ghost calls0: seq<TransportCall>, ghost pending0: seq<Pending>)
      requires i < |uuids|
      requires RunApplied(EnableRun(k, enable, uuids[..i], table, gatt, Delay(), start),
                          listeners, log0, calls0, pending0, queue, log, calls, pending)
      modifies this`queue, this`log, this`calls, this`pending
      ensures RunApplied(EnableRun(k, enable, uuids[..i + 1], table, gatt, Delay(), start),
                         listeners, log0, calls0, pending0, queue, log, calls, pending)
    {
      ghost var r := EnableRun(k, enable, uuids[..i], table, gatt, Delay(), start);
      assert uuids[..i + 1][..i] == uuids[..i];
      ghost var q, l, c, p := queue, log, calls, pending;
      var uuid := uuids[i];
      if uuid !in table {
        Emit(FailureFor(k, NoCharacteristic));
        EnabledMissing(k, enable, uuid, table, gatt, Delay(), r, listeners, log0, calls0, pending0, q, l, c, p, log);
      } else {
        AddRequest(Request(k, Some(table[uuid]), enable));
        EnabledFound(k, enable, uuid, table, gatt, Delay(), r, listeners, log0, calls0, pending0,
                     q, l, c, p, queue, log, calls, pending);
      }
    }

    // ---------------------------------------------------------------- connection lifecycle

    /** Arms the connect watchdog when retrying is enabled, the budget is positive and a timeout is set. */
    method CheckConnected()
      modifies this`pending
      ensures pending == old(pending) +
        if Retry.Arms(retryConnectEnable, retryConnectCount, connectTimeoutMillis)
        then [ConnectWatchdog(connectTimeoutMillis)] else []
    {
      if retryConnectEnable && retryConnectCount > 0 && connectTimeoutMillis > 0 {
        pending := pending + [ConnectWatchdog(connectTimeoutMillis)];
      }
    }

    /** The service-discovery watchdog, armed under the same conditions with its own timeout. */
    method CheckServiceDiscover()
      modifies this`pending
      ensures pending == old(pending) +
        if Retry.Arms(retryConnectEnable, retryConnectCount, serviceTimeoutMillis)
        then [ServiceWatchdog(serviceTimeoutMillis)] else []
    {
      if retryConnectEnable && retryConnectCount > 0 && serviceTimeoutMillis > 0 {
        pending := pending + [ServiceWatchdog(serviceTimeoutMillis)];
      }
    }

    /**
     * Rejects a missing device and an existing connection; otherwise closes
     * any session still held before opening the new one (`session` is what
     * the transport returns for it).
     */
    method Connect(auto: bool, dev: Option<Device>, session: Option<Session>) returns (ok: bool)
      modifies this`autoConnect, this`device, this`gatt, this`connected, this`log, this`calls, this`pending
      ensures autoConnect == auto && device == dev
      ensures ok <==> dev.Some? && !old(connected)
      ensures ConnectDid(auto, dev, session, listeners,
                         Retry.Arms(retryConnectEnable, retryConnectCount, connectTimeoutMillis), connectTimeoutMillis,
                         old(connected), old(gatt), old(log), old(calls), old(pending),
                         connected, gatt, log, calls, pending)
    {
      autoConnect := auto;
      device := dev;
      if dev.None? {
        Emit(DeviceConnectFail(LocalErrorCode, NullDevice));
        return false;
      }
      if connected {
        Emit(DeviceConnectFail(0, AlreadyConnected));
        return false;
      }
      if gatt.Some? {
        calls := calls + [CloseGatt(gatt.value)];
        gatt := None;
        connected := false;
      }
      calls := calls + [ConnectGatt(dev.value, auto)];
      gatt := session;
      Emit(DeviceConnecting);
      CheckConnected();
      return true;
    }

    /** Acts only when connected with a session: disconnects it, drops it, stops the RSSI poller. */
    method Disconnect()
      requires Valid()
      modifies this`connected, this`serviceDiscovered, this`gatt, this`calls, this`rssiTimers, this`rssiTracked
      ensures Valid()
      ensures old(connected) && old(gatt).Some? ==>
        && !connected && !serviceDiscovered && gatt.None? && !rssiTracked
        && calls == old(calls) + [DisconnectGatt(old(gatt).value)]
        && rssiTimers == old(rssiTimers) - (if old(rssiTracked) then 1 else 0)
      ensures !(old(connected) && old(gatt).Some?) ==> unchanged(this)
    {
      if connected && gatt.Some? {
        calls := calls + [DisconnectGatt(gatt.value)];
        connected := false;
        serviceDiscovered := false;
        CancelReadRssiTimerTask();
        gatt := None;
      }
    }

    /** Acts exactly when a session is held: closes it and clears both flags. */
    method Close()
      modifies this`connected, this`serviceDiscovered, this`gatt, this`calls
      ensures old(gatt).Some? ==>
        && !connected && !serviceDiscovered && gatt.None?
        && calls == old(calls) + [CloseGatt(old(gatt).value)]
      ensures old(gatt).None? ==> unchanged(this)
    {
      if gatt.Some? {
        calls := calls + [CloseGatt(gatt.value)];
        gatt := None;
        connected := false;
        serviceDiscovered := false;
      }
    }

    // ---------------------------------------------------------------- RSSI poller

    /** Starts polling when connected; otherwise remembers to start on the next connection. */
    method ReadRssi()
      requires Valid()
      modifies this`isReadRssi, this`rssiTimers, this`rssiTracked
      ensures Valid()
      ensures connected ==> rssiTracked && rssiTimers == old(rssiTimers) + 1 && isReadRssi == old(isReadRssi)
      ensures !connected ==> isReadRssi && rssiTimers == old(rssiTimers) && rssiTracked == old(rssiTracked)
    {
      if connected {
        ReadRssiTimerTask();
      } else {
        isReadRssi := true;
      }
    }

    /**
     * Starts a new periodic timer. The reference to a timer already running
     * is dropped without cancelling it, so that timer keeps running.
     */
    method ReadRssiTimerTask()
      modifies this`rssiTimers, this`rssiTracked
      ensures rssiTracked && rssiTimers == old(rssiTimers) + 1
    {
      rssiTimers := rssiTimers + 1;
      rssiTracked := true;
    }

    /** Cancels the timer the controller holds, if any. */
    method CancelReadRssiTimerTask()
      requires Valid()
      modifies this`rssiTimers, this`rssiTracked
      ensures Valid() && !rssiTracked
      ensures rssiTimers == old(rssiTimers) - (if old(rssiTracked) then 1 else 0)
    {
      if rssiTracked {
        rssiTimers := rssiTimers - 1;
        rssiTracked := false;
      }
    }

    /** A running RSSI timer fires: it reads the signal strength only while a session is held. */
    method FireRssiTimer()
      requires rssiTimers > 0
      modifies this`calls
      ensures calls == old(calls) + if gatt.Some? then [ReadRemoteRssi(gatt.value)] else []
    {
      if gatt.Some? {
        calls := calls + [ReadRemoteRssi(gatt.value)];
      }
    }

    // ---------------------------------------------------------------- transport callbacks

    method OnConnectionStateChange(status: int, newState: int)
      requires Valid()
      modifies this`connected, this`serviceDiscovered, this`log, this`pending, this`rssiTimers, this`rssiTracked
      ensures Valid()
      ensures newState == StateConnected ==>
        && connected && serviceDiscovered == old(serviceDiscovered)
        && log == old(log) + Deliveries([DeviceConnected], listeners)
        && pending == old(pending) + [DiscoverAfter(DiscoveryDelay)]
        && (isReadRssi ==> rssiTracked && rssiTimers == old(rssiTimers) + 1 - (if old(rssiTracked) then 1 else 0))
        && (!isReadRssi ==> rssiTracked == old(rssiTracked) && rssiTimers == old(rssiTimers))
      ensures newState == StateDisconnected ==>
        && !connected && !serviceDiscovered
        && log == old(log) + Deliveries([DeviceDisconnected], listeners)
        && pending == old(pending) && rssiTracked == old(rssiTracked) && rssiTimers == old(rssiTimers)
      ensures newState != StateConnected && newState != StateDisconnected ==>
        && connected == old(connected) && serviceDiscovered == old(serviceDiscovered)
        && log == old(log) + Deliveries([DeviceConnectFail(status, StateChangeError)], listeners)
        && pending == old(pending) && rssiTracked == old(rssiTracked) && rssiTimers == old(rssiTimers)
    {
      if newState == StateConnected {
        connected := true;
        Emit(DeviceConnected);
        pending := pending + [DiscoverAfter(DiscoveryDelay)];
        if isReadRssi {
          CancelReadRssiTimerTask();
          ReadRssiTimerTask();
        }
      } else if newState == StateDisconnected {
        connected := false;
        serviceDiscovered := false;
        Emit(DeviceDisconnected);
      } else {
        Emit(DeviceConnectFail(status, StateChangeError));
      }
    }

    /** Reads the connection parameters through the queue, when a session is held. */
    method ReadConnectionParameters(gapService: Option<ServiceTable>)
      modifies this`queue, this`log, this`calls, this`pending
      ensures gatt.Some? ==> Applied(old(log), old(calls), old(pending),
        EnqueueOrFail(old(queue), gatt, Delay(), Read, false, ResolveInService(gatt, PpcpUuid, gapService)))
      ensures gatt.None? ==> unchanged(this)
    {
      if gatt.None? {
        return;
      }
      ReadCharacteristic(PpcpUuid, gapService);
    }

    /**
     * On success: marks services discovered, enqueues the connection
     * parameter read, then reports the discovery; on failure only clears the flag.
     */
    method OnServicesDiscovered(status: int, gapService: Option<ServiceTable>)
      modifies this`serviceDiscovered, this`queue, this`log, this`calls, this`pending
      ensures serviceDiscovered <==> status == GattSuccess
      ensures status == GattSuccess ==>
        var d := if gatt.Some?
                 then EnqueueOrFail(old(queue), gatt, Delay(), Read, false, ResolveInService(gatt, PpcpUuid, gapService))
                 else QueueSpec.Idle(old(queue));
        && queue == d.rest && calls == old(calls) + d.calls && pending == old(pending) + Posted(d.posted)
        && log == old(log) + Deliveries(d.events + [ServicesDiscovered], listeners)
      ensures status != GattSuccess ==>
        queue == old(queue) && log == old(log) && calls == old(calls) && pending == old(pending)
    {
      if status == GattSuccess {
        serviceDiscovered := true;
        ghost var log0 := log;
        ReadConnectionParameters(gapService);
        ghost var log1 := log;
        Emit(ServicesDiscovered);
        ghost var d := if gatt.Some?
                 then EnqueueOrFail(old(queue), gatt, Delay(), Read, false, ResolveInService(gatt, PpcpUuid, gapService))
                 else QueueSpec.Idle(old(queue));
        DeliveriesAppend(d.events, [ServicesDiscovered], listeners);
        if gatt.None? {
          assert calls == old(calls) + [] && pending == old(pending) + [];
        }
      } else {
        serviceDiscovered := false;
      }
    }

    /**
     * A read completed. A successful read of the connection parameters is
     * decoded and sets the automatic queue delay without notifying anyone;
     * every other outcome is reported. The queue advances in every case.
     */
    method OnCharacteristicRead(c: Characteristic, status: int, octets: seq<int>)
      requires status == GattSuccess && c.uuid == PpcpUuid ==> |octets| >= 8
      modifies this`connParameters, this`autoQueueInterval, this`queue, this`log, this`calls, this`pending
      ensures status == GattSuccess && c.uuid == PpcpUuid ==>
        connParameters == Some(Decode(octets)) && autoQueueInterval == AutoQueueInterval(Decode(octets))
      ensures !(status == GattSuccess && c.uuid == PpcpUuid) ==>
        connParameters == old(connParameters) && autoQueueInterval == old(autoQueueInterval)
      ensures Applied(old(log) + Deliveries(ReadCompletionEvents(c, status), listeners), old(calls), old(pending),
                      QueueSpec.Next(old(queue), gatt, Delay()))
    {
      if status == GattSuccess {
        if c.uuid == PpcpUuid {
          var p := Decode(octets);
          connParameters := Some(p);
          autoQueueInterval := TruncateToInt(p.connIntervalMax) + QueueMargin;
        } else {
          Emit(ReadSuccess(c));
        }
      } else if status == GattInsufficientAuthentication {
        Emit(ReadFailure(status, LostBonding));
      } else {
        Emit(ReadFailure(status, TransportError));
      }
      assert log == old(log) + Deliveries(ReadCompletionEvents(c, status), listeners);
      Next();
    }

    /** A write completed: it is reported and the queue advances. */
    method OnCharacteristicWrite(c: Characteristic, status: int)
      modifies this`queue, this`log, this`calls, this`pending
      ensures Applied(old(log) + Deliveries(WriteCompletionEvents(c, status), listeners), old(calls), old(pending),
                      QueueSpec.Next(old(queue), gatt, Delay()))
    {
      if status == GattSuccess {
        Emit(WriteSuccess(c));
      } else if status == GattInsufficientAuthentication {
        Emit(WriteFailed(status, LostBonding));
      } else {
        Emit(WriteFailed(status, TransportError));
      }
      Next();
    }

    /** A value arrived: it goes to notification or to indication listeners by the classifier. */
    method OnCharacteristicChanged(c: Characteristic)
      modifies this`log
      ensures IsNotification(c.cccd) ==> log == old(log) + Deliveries([NotificationValue(c)], listeners)
      ensures !IsNotification(c.cccd) ==> log == old(log) + Deliveries([IndicationValue(c)], listeners)
    {
      if IsNotification(c.cccd) {
        Emit(NotificationValue(c));
      } else {
        Emit(IndicationValue(c));
      }
    }

    /** A descriptor write completed: the queue advances, nothing is reported. */
    method OnDescriptorWrite()
      modifies this`queue, this`log, this`calls, this`pending
      ensures Applied(old(log), old(calls), old(pending), QueueSpec.Next(old(queue), gatt, Delay()))
    {
      Next();
    }

    method OnReadRemoteRssi(rssi: int, status: int)
      modifies this`log
      ensures log == old(log) + if status == GattSuccess then Deliveries([RssiRead(rssi)], listeners) else []
    {
      if status == GattSuccess {
        Emit(RssiRead(rssi));
      }
    }

    // ---------------------------------------------------------------- delayed actions

    /** A scheduled `runQueue` fires. */
    method FireRunQueue(i: nat)
      requires i < |pending| && pending[i].RunQueueAfter?
      modifies this`queue, this`log, this`calls, this`pending
      ensures Applied(old(log), old(calls), Removed(old(pending), i), QueueSpec.RunQueue(old(queue), gatt, Delay()))
    {
      pending := Removed(pending, i);
      RunQueue();
    }

    /**
     * The connect watchdog fires and is removed from the pending actions.
     * Its effect is one `WatchdogStep` with the link state as the awaited
     * state: once connected nothing else changes; otherwise it calls
     * `connect` (which may arm the next watchdog against the budget as it
     * still is) and only then spends one unit of the budget.
     */
    method FireConnectWatchdog(i: nat, session: Option<Session>)
      requires i < |pending| && pending[i].ConnectWatchdog?
      modifies this`autoConnect, this`device, this`gatt, this`connected, this`log, this`calls, this`pending,
               this`retryConnectCount
      ensures var f := Retry.WatchdogStep(old(connected), old(connected), old(device).Some?,
                                          retryConnectEnable, connectTimeoutMillis, old(retryConnectCount));
        && retryConnectCount == f.budget
        && pending == Removed(old(pending), i) + (if f.rearms then [ConnectWatchdog(connectTimeoutMillis)] else [])
        && (f.reconnects <==> gatt == session && calls != old(calls))
      ensures old(connected) ==>
        && connected && gatt == old(gatt) && log == old(log) && calls == old(calls)
      ensures !old(connected) ==>
        ConnectDid(old(autoConnect), old(device), session, listeners,
                   Retry.Arms(retryConnectEnable, old(retryConnectCount), connectTimeoutMillis), connectTimeoutMillis,
                   old(connected), old(gatt), old(log), old(calls), Removed(old(pending), i),
                   connected, gatt, log, calls, pending)
      ensures autoConnect == old(autoConnect) && device == old(device)
    {
      pending := Removed(pending, i);
      if !connected {
        var _ := Connect(autoConnect, device, session);
        retryConnectCount := retryConnectCount - 1;
      }
    }

    /**
     * The service-discovery watchdog fires and is removed from the pending
     * actions. Its effect is one `WatchdogStep` with service discovery as
     * the awaited state: once discovered nothing else changes; otherwise it
     * calls `connect` and spends one unit of the budget. While the link is
     * up that `connect` is rejected, so the budget is spent without a
     * reconnect.
     */
    method FireServiceWatchdog(i: nat, session: Option<Session>)
      requires i < |pending| && pending[i].ServiceWatchdog?
      modifies this`autoConnect, this`device, this`gatt, this`connected, this`log, this`calls, this`pending,
               this`retryConnectCount
      ensures var f := Retry.WatchdogStep(old(serviceDiscovered), old(connected), old(device).Some?,
                                          retryConnectEnable, connectTimeoutMillis, old(retryConnectCount));
        && retryConnectCount == f.budget
        && pending == Removed(old(pending), i) + (if f.rearms then [ConnectWatchdog(connectTimeoutMillis)] else [])
        && (f.reconnects <==> gatt == session && calls != old(calls))
      ensures old(serviceDiscovered) ==>
        && connected == old(connected) && gatt == old(gatt) && log == old(log) && calls == old(calls)
      ensures !old(serviceDiscovered) ==>
        ConnectDid(old(autoConnect), old(device), session, listeners,
                   Retry.Arms(retryConnectEnable, old(retryConnectCount), connectTimeoutMillis), connectTimeoutMillis,
                   old(connected), old(gatt), old(log), old(calls), Removed(old(pending), i),
                   connected, gatt, log, calls, pending)
      ensures autoConnect == old(autoConnect) && device == old(device)
    {
      pending := Removed(pending, i);
      if !serviceDiscovered {
        var _ := Connect(autoConnect, device, session);
        retryConnectCount := retryConnectCount - 1;
      }
    }

    /**
     * The delayed discovery kick fires: unless the device is bonding, and
     * while a session is held, it starts discovery and arms the
     * service-discovery watchdog.
     */
    method FireDiscovery(i: nat, bonding: bool)
      requires i < |pending| && pending[i].DiscoverAfter?
      modifies this`calls, this`pending
      ensures !bonding && gatt.Some? ==>
        && calls == old(calls) + [DiscoverServices(gatt.value)]
        && pending == Removed(old(pending), i) +
             if Retry.Arms(retryConnectEnable, retryConnectCount, serviceTimeoutMillis)
             then [ServiceWatchdog(serviceTimeoutMillis)] else []
      ensures bonding || gatt.None? ==> calls == old(calls) && pending == Removed(old(pending), i)
    {
      pending := Removed(pending, i);
      if !bonding && gatt.Some? {
        calls := calls + [DiscoverServices(gatt.value)];
        CheckServiceDiscover();
      }
    }
  }
}
