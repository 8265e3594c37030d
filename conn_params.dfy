/**
 * Decoding of the Peripheral Preferred Connection Parameters characteristic
 * (0x2A04, Bluetooth Core Specification Vol 3, Part C, section 12.3) as the
 * controller does it on a successful read, and the queue interval derived
 * from it.
 *
 * The controller combines each pair of octets as `hi * 16 + lo`; the
 * standard lays the four fields out as little-endian 16-bit values
 * (`hi * 256 + lo`). The model follows the controller; `StandardDecode`
 * is the standard's layout, kept as a reference to compare against.
 */
module ConnParams {
  import opened BleTypes

  /** The unit of the two interval fields, in milliseconds. */
  const IntervalUnit: real := 1.25

  /** Margin added to the maximum interval to obtain the automatic queue delay. */
  const QueueMargin: int := 50

  /** The automatic queue delay before any parameters are read. */
  const InitialAutoQueueInterval: int := 400

  datatype ConnParameters = ConnParameters(
    uuid: Uuid,
    connIntervalMin: real,
    connIntervalMax: real,
    slaveLatency: int,
    supervisionTimeout: int,
    properties: string)

  /** How the controller combines two octets of one field. */
  function Combine(lo: int, hi: int): int
  {
    hi * 16 + lo
  }

  /** How the standard combines two octets of one field (little-endian). */
  function CombineStandard(lo: int, hi: int): int
  {
    hi * 256 + lo
  }

  /**
   * Decoding of the octet list; the controller indexes octets 0 to 7, so a
   * shorter list is outside what it handles.
   */
  function Decode(octets: seq<int>): (p: ConnParameters)
    requires |octets| >= 8
    ensures p.uuid == PpcpUuid && p.properties == "READ"
    ensures p.connIntervalMin == IntervalUnit * Combine(octets[0], octets[1]) as real
    ensures p.connIntervalMax == IntervalUnit * Combine(octets[2], octets[3]) as real
    ensures p.slaveLatency == Combine(octets[4], octets[5])
    ensures p.supervisionTimeout == Combine(octets[6], octets[7])
  {
    ConnParameters(
      PpcpUuid,
      (octets[1] * 16 + octets[0]) as real * 1.25,
      (octets[3] * 16 + octets[2]) as real * 1.25,
      octets[5] * 16 + octets[4],
      octets[7] * 16 + octets[6],
      "READ")
  }

  /** The same fields laid out as the standard lays them out. */
  function StandardDecode(octets: seq<int>): (p: ConnParameters)
    requires |octets| >= 8
  {
    ConnParameters(
      PpcpUuid,
      IntervalUnit * CombineStandard(octets[0], octets[1]) as real,
      IntervalUnit * CombineStandard(octets[2], octets[3]) as real,
      CombineStandard(octets[4], octets[5]),
      CombineStandard(octets[6], octets[7]),
      "READ")
  }

  /** Java's `(int)` conversion of a double: truncation toward zero. */
  function TruncateToInt(x: real): (r: int)
    ensures 0.0 <= x ==> 0 <= r && r as real <= x < r as real + 1.0
    ensures x < 0.0 ==> r <= 0 && r as real - 1.0 < x <= r as real
  {
    if x >= 0.0 then x.Floor else -((-x).Floor)
  }

  /** The queue delay the controller adopts after reading the parameters. */
  function AutoQueueInterval(p: ConnParameters): int
  {
    TruncateToInt(p.connIntervalMax) + QueueMargin
  }

  predicate IsOctets(octets: seq<int>)
  {
    forall i :: 0 <= i < |octets| ==> 0 <= octets[i] < 256
  }

  /**
   * For non-negative octets the automatic delay is the maximum interval
   * rounded down to whole milliseconds plus the margin.
   */
  lemma AutoQueueIntervalBounds(octets: seq<int>)
    requires |octets| >= 8 && IsOctets(octets)
    ensures var p := Decode(octets);
      && AutoQueueInterval(p) >= QueueMargin
      && (AutoQueueInterval(p) - QueueMargin) as real <= p.connIntervalMax
      && p.connIntervalMax < (AutoQueueInterval(p) - QueueMargin + 1) as real
  {
    var p := Decode(octets);
    assert 0 <= Combine(octets[2], octets[3]);
    assert p.connIntervalMax >= 0.0;
  }

  /** The worked example: octets 6,0,12,0,0,0,100,0. */
  lemma DecodeExample()
    ensures var p := Decode([6, 0, 12, 0, 0, 0, 100, 0]);
      && p.connIntervalMin == 7.5 && p.connIntervalMax == 15.0
      && p.slaveLatency == 0 && p.supervisionTimeout == 100
      && AutoQueueInterval(p) == 65
  {
    var p := Decode([6, 0, 12, 0, 0, 0, 100, 0]);
    assert p.connIntervalMax == 15.0;
    assert (15.0).Floor == 15;
  }

  /**
   * The controller's decoding agrees with the standard's exactly when every
   * high octet is zero.
   */
  lemma {:induction false} AgreesWithStandardIff(octets: seq<int>)
    requires |octets| >= 8
    ensures Decode(octets) == StandardDecode(octets)
        <==> octets[1] == 0 && octets[3] == 0 && octets[5] == 0 && octets[7] == 0
  {
    var a, b := Decode(octets), StandardDecode(octets);
    if a == b {
      CombineDiffers(octets[0], octets[1]);
      CombineDiffers(octets[2], octets[3]);
      CombineDiffers(octets[4], octets[5]);
      CombineDiffers(octets[6], octets[7]);
    }
  }

  lemma CombineDiffers(lo: int, hi: int)
    ensures Combine(lo, hi) == CombineStandard(lo, hi) <==> hi == 0
    ensures IntervalUnit * Combine(lo, hi) as real == IntervalUnit * CombineStandard(lo, hi) as real <==> hi == 0
  {
  }

  /**
   * The controller's decoding loses information the standard keeps: two
   * different octet lists give the same parameters.
   */
  lemma DecodeNotInjective()
    ensures Decode([16, 0, 0, 0, 0, 0, 0, 0]) == Decode([0, 1, 0, 0, 0, 0, 0, 0])
    ensures StandardDecode([16, 0, 0, 0, 0, 0, 0, 0]) != StandardDecode([0, 1, 0, 0, 0, 0, 0, 0])
  {
    assert StandardDecode([0, 1, 0, 0, 0, 0, 0, 0]).connIntervalMin == 320.0;
  }
}
