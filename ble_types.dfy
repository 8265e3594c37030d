/**
 * Values shared by the controller model: identifiers, GATT characteristics
 * and descriptors, queued requests, listener events and the calls the
 * controller makes on the transport.
 *
 * Object references of the platform (devices, GATT sessions, listeners,
 * listener tags) are modelled by identifiers: two references are the same
 * object exactly when their identifiers are equal.
 */
module BleTypes {

  datatype Option<+T> = None | Some(value: T)

  /** A 128-bit UUID as its most and least significant 64-bit halves. */
  datatype Uuid = Uuid(msb: int, lsb: int)

  /** The Bluetooth base UUID's lower half, shared by all 16-bit assigned numbers. */
  const BaseLsb: int := 0x8000_0080_5F9B_34FB

  /** Peripheral Preferred Connection Parameters characteristic 0x2A04. */
  const PpcpUuid: Uuid := Uuid(0x0000_2A04_0000_1000, BaseLsb)

  type Device = nat
  type Session = nat
  type Tag = nat

  /** Characteristic property bits, as the platform defines them. */
  const PropertyRead: bv32 := 0x02
  const PropertyWriteNoResponse: bv32 := 0x04
  const PropertyWrite: bv32 := 0x08
  const PropertyNotify: bv32 := 0x10
  const PropertyIndicate: bv32 := 0x20

  /** Values of the Client Characteristic Configuration descriptor. */
  const EnableNotificationValue: seq<bv8> := [0x01, 0x00]
  const EnableIndicationValue: seq<bv8> := [0x02, 0x00]
  const DisableValue: seq<bv8> := [0x00, 0x00]

  /** Transport status and state codes. */
  const GattSuccess: int := 0
  const GattInsufficientAuthentication: int := 5
  const StateDisconnected: int := 0
  const StateConnected: int := 2

  /** Error code the controller uses for failures it detects itself. */
  const LocalErrorCode: int := 233

  /**
   * The configuration descriptor of a characteristic: absent, or present
   * with a value that may itself be unset.
   */
  datatype Descriptor = NoDescriptor | Descriptor(value: Option<seq<bv8>>)

  datatype Characteristic = Characteristic(
    uuid: Uuid,
    properties: bv32,
    cccd: Descriptor,
    value: seq<bv8>)

  /** What a service lookup of the session returns: its characteristics by UUID. */
  type ServiceTable = map<Uuid, Characteristic>

  datatype RequestKind = Write | Read | EnableNotifications | EnableIndications

  /** A queued GATT operation; `enable` only matters to the two enable kinds. */
  datatype Request = Request(kind: RequestKind, characteristic: Option<Characteristic>, enable: bool)

  /** The listener interfaces a listener object may implement. */
  datatype Capability =
    | ConnectCap | ScanCap | NotificationCap | IndicationCap
    | ReadCharacteristicCap | WriteCharacteristicCap | ReadRssiCap

  datatype Listener = Listener(id: nat, tag: Tag, caps: set<Capability>)

  /** Why the controller reports a failure. */
  datatype Reason =
    | NullDevice | AlreadyConnected | StateChangeError
    | NoSession | NullCharacteristic | Unsupported | MissingDescriptor
    | NullServiceUuid | NullCharacteristicUuid | NoService | NoCharacteristic
    | LostBonding | TransportError

  /** The listener callbacks the controller invokes. */
  datatype Event =
    | DeviceConnecting
    | DeviceConnected
    | DeviceDisconnected
    | DeviceConnectFail(code: int, reason: Reason)
    | ServicesDiscovered
    | NotificationFailed(code: int, reason: Reason)
    | NotificationValue(c: Characteristic)
    | IndicationFailed(code: int, reason: Reason)
    | IndicationValue(c: Characteristic)
    | WriteFailed(code: int, reason: Reason)
    | WriteSuccess(c: Characteristic)
    | ReadFailure(code: int, reason: Reason)
    | ReadSuccess(c: Characteristic)
    | RssiRead(rssi: int)

  /** The listener interface through which an event is delivered. */
  function CapabilityOf(e: Event): Capability
  {
    match e
    case DeviceConnecting | DeviceConnected | DeviceDisconnected
      | DeviceConnectFail(_, _) | ServicesDiscovered => ConnectCap
    case NotificationFailed(_, _) | NotificationValue(_) => NotificationCap
    case IndicationFailed(_, _) | IndicationValue(_) => IndicationCap
    case WriteFailed(_, _) | WriteSuccess(_) => WriteCharacteristicCap
    case ReadFailure(_, _) | ReadSuccess(_) => ReadCharacteristicCap
    case RssiRead(_) => ReadRssiCap
  }

  /** The listener interface that hears about requests of a kind. */
  function CapabilityOfKind(k: RequestKind): Capability
  {
    match k
    case Write => WriteCharacteristicCap
    case Read => ReadCharacteristicCap
    case EnableNotifications => NotificationCap
    case EnableIndications => IndicationCap
  }

  /** The failure callback a request kind reports through, with the local error code. */
  function FailureFor(k: RequestKind, reason: Reason): (e: Event)
    ensures CapabilityOf(e) == CapabilityOfKind(k)
  {
    match k
    case Write => WriteFailed(LocalErrorCode, reason)
    case Read => ReadFailure(LocalErrorCode, reason)
    case EnableNotifications => NotificationFailed(LocalErrorCode, reason)
    case EnableIndications => IndicationFailed(LocalErrorCode, reason)
  }

  /** One listener callback round: the event and the listeners that received it. */
  datatype Delivery = Delivery(event: Event, recipients: set<Listener>)

  /** A call the controller makes on the GATT transport. */
  datatype TransportCall =
    | ConnectGatt(device: Device, autoConnect: bool)
    | CloseGatt(session: Session)
    | DisconnectGatt(session: Session)
    | DiscoverServices(session: Session)
    | SetCharacteristicNotification(session: Session, c: Characteristic, enable: bool)
    | WriteDescriptor(session: Session, c: Characteristic, value: seq<bv8>)
    | WriteCharacteristic(session: Session, c: Characteristic)
    | ReadCharacteristic(session: Session, c: Characteristic)
    | ReadRemoteRssi(session: Session)

  /** Calls that start a GATT operation on the link whose completion the transport reports later. */
  predicate OverTheAir(t: TransportCall)
  {
    t.WriteDescriptor? || t.WriteCharacteristic? || t.ReadCharacteristic?
  }
}
