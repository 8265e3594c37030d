/**
 * The pure decisions of the controller: which property bit a request needs,
 * what dispatching a request does (the checks of the four dispatchers and
 * the transport calls they make), how long `next()` waits before advancing
 * the queue, and whether an incoming value is a notification or an
 * indication.
 */
module GattChecks {
  import opened BleTypes

  /** The property bits of which a request kind needs at least one. */
  function RequiredMask(k: RequestKind): bv32
  {
    match k
    case Write => PropertyWrite | PropertyWriteNoResponse
    case Read => PropertyRead
    case EnableNotifications => PropertyNotify
    case EnableIndications => PropertyIndicate
  }

  predicate Supports(properties: bv32, k: RequestKind)
  {
    properties & RequiredMask(k) != 0
  }

  /** The capability test, bit by bit. */
  lemma SupportsIff(properties: bv32, k: RequestKind)
    ensures Supports(properties, k) <==>
      match k
      case Write => properties & PropertyWrite != 0 || properties & PropertyWriteNoResponse != 0
      case Read => properties & PropertyRead != 0
      case EnableNotifications => properties & PropertyNotify != 0
      case EnableIndications => properties & PropertyIndicate != 0
  {
    if k == Write {
      assert properties & (PropertyWrite | PropertyWriteNoResponse)
        == (properties & PropertyWrite) | (properties & PropertyWriteNoResponse);
    }
  }

  /** The descriptor value the enable dispatchers write: the enable value, whatever `enable` says. */
  function DescriptorValueFor(k: RequestKind): seq<bv8>
  {
    if k == EnableIndications then EnableIndicationValue else EnableNotificationValue
  }

  /**
   * What dispatching a request does: the reason it was rejected, if it was
   * (otherwise it reached the transport with an operation whose completion
   * will advance the queue), and the transport calls it makes.
   */
  datatype Effect = Effect(failure: Option<Reason>, calls: seq<TransportCall>)
  {
    predicate Passed() { failure.None? }
  }

  /** The listener events of a dispatch: one failure event of the request's own kind, or none. */
  function EventsOf(k: RequestKind, e: Effect): (evs: seq<Event>)
    ensures |evs| == if e.Passed() then 0 else 1
    ensures forall i :: 0 <= i < |evs| ==> CapabilityOf(evs[i]) == CapabilityOfKind(k)
  {
    if e.failure.Some? then [FailureFor(k, e.failure.value)] else []
  }

  function DispatchEffect(r: Request, gatt: Option<Session>): (e: Effect)
    ensures e.Passed() <==>
      && gatt.Some? && r.characteristic.Some?
      && Supports(r.characteristic.value.properties, r.kind)
      && (r.kind in {EnableNotifications, EnableIndications} ==> r.characteristic.value.cccd.Descriptor?)
  {
    if gatt.None? then
      Effect(Some(NoSession), [])
    else if r.characteristic.None? then
      Effect(Some(NullCharacteristic), [])
    else
      var s, c := gatt.value, r.characteristic.value;
      if !Supports(c.properties, r.kind) then
        Effect(Some(Unsupported), [])
      else
        match r.kind
        case Write => Effect(None, [WriteCharacteristic(s, c)])
        case Read => Effect(None, [ReadCharacteristic(s, c)])
        case _ =>
          var register := SetCharacteristicNotification(s, c, r.enable);
          if c.cccd.Descriptor? then
            Effect(None, [register, WriteDescriptor(s, c, DescriptorValueFor(r.kind))])
          else
            Effect(Some(MissingDescriptor), [register])
  }

  /** Number of calls in a log that start an operation on the link. */
  function AirborneCount(calls: seq<TransportCall>): (n: nat)
    ensures n <= |calls|
  {
    if calls == [] then 0
    else AirborneCount(calls[..|calls| - 1]) + (if OverTheAir(calls[|calls| - 1]) then 1 else 0)
  }

  lemma {:induction false} AirborneAppend(a: seq<TransportCall>, b: seq<TransportCall>)
    ensures AirborneCount(a + b) == AirborneCount(a) + AirborneCount(b)
  {
    if b != [] {
      assert (a + b)[..|a + b| - 1] == a + b[..|b| - 1];
      AirborneAppend(a, b[..|b| - 1]);
    } else {
      assert a + b == a;
    }
  }

  /**
   * A dispatch starts exactly one operation on the link when it passes and
   * none when it fails; a failing enable request may still have registered
   * the local notification switch.
   */
  lemma DispatchAirborne(r: Request, gatt: Option<Session>)
    ensures AirborneCount(DispatchEffect(r, gatt).calls) == if DispatchEffect(r, gatt).Passed() then 1 else 0
    ensures var e := DispatchEffect(r, gatt);
      forall i :: 0 <= i < |e.calls| && OverTheAir(e.calls[i]) ==>
        e.calls[i].c == r.characteristic.value
  {
    var e := DispatchEffect(r, gatt);
    if |e.calls| == 2 {
      assert e.calls[..1] == [e.calls[0]];
    }
  }

  /**
   * Enabling and disabling write the same descriptor value: the value is
   * chosen by the request kind only.
   */
  lemma DescriptorIgnoresEnable(c: Characteristic, k: RequestKind, s: Session)
    requires k == EnableNotifications || k == EnableIndications
    requires Supports(c.properties, k) && c.cccd.Descriptor?
    ensures DispatchEffect(Request(k, Some(c), false), Some(s)).calls[1]
         == DispatchEffect(Request(k, Some(c), true), Some(s)).calls[1]
    ensures DispatchEffect(Request(k, Some(c), false), Some(s)).calls[1].value != DisableValue
  {
  }

  /**
   * The delay `next()` waits before advancing the queue; `None` means it
   * advances at once.
   */
  function NextDelay(enableQueueDelay: bool, queueDelayTime: int, autoQueueInterval: int): (d: Option<int>)
  {
    if !enableQueueDelay then None
    else if queueDelayTime < 0 then Some(autoQueueInterval)
    else Some(queueDelayTime)
  }

  /** The pacing choice, case by case. */
  lemma NextDelayCases(enableQueueDelay: bool, queueDelayTime: int, autoQueueInterval: int)
    ensures var d := NextDelay(enableQueueDelay, queueDelayTime, autoQueueInterval);
      && (d.None? <==> !enableQueueDelay)
      && (d == Some(autoQueueInterval) <== enableQueueDelay && queueDelayTime < 0)
      && (d == Some(queueDelayTime) <== enableQueueDelay && queueDelayTime >= 0)
      && (d.Some? && autoQueueInterval >= 0 ==> d.value >= 0)
  {
  }

  /**
   * The classifier of incoming values: a notification unless the
   * characteristic has a configuration descriptor holding two octets whose
   * first is not 0x01.
   */
  predicate IsNotification(cccd: Descriptor)
  {
    cccd.NoDescriptor? || cccd.value.None? || |cccd.value.value| != 2 || cccd.value.value[0] == 0x01
  }

  /**
   * After a successful enable request the classifier sends values to the
   * listeners of the same kind; a descriptor left at the disabled value is
   * classified as an indication.
   */
  lemma ClassifierAfterEnable(k: RequestKind)
    requires k == EnableNotifications || k == EnableIndications
    ensures IsNotification(Descriptor(Some(DescriptorValueFor(k)))) <==> k == EnableNotifications
    ensures !IsNotification(Descriptor(Some(DisableValue)))
  {
  }
}
