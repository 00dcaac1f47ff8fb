/** Types and constants declared by the circuit breaker header: fixed-width
    integers, the trigger kinds, the per-SSRC records and the report block
    fields the breaker reads. */
module CbTypes {

  type uint8 = x: int | 0 <= x < 0x100
  type uint16 = x: int | 0 <= x < 0x1_0000
  type uint32 = x: int | 0 <= x < 0x1_0000_0000
  type uint64 = x: int | 0 <= x < 0x1_0000_0000_0000_0000

  /** Positive integers: a frame rate the breaker may divide by. */
  type PosInt = x: int | 0 < x witness 1

  /** Unsigned 16-bit truncation (conversion to uint16_t). */
  function Wrap16(x: int): (r: uint16)
    ensures 0 <= x < 0x1_0000 ==> r == x
  {
    x % 0x1_0000
  }

  /** Unsigned 32-bit wrap-around (uint32_t arithmetic and conversions). */
  function Wrap32(x: int): (r: uint32)
    ensures 0 <= x < 0x1_0000_0000 ==> r == x
  {
    x % 0x1_0000_0000
  }

  /** Accumulating in uint32 wraps like summing first and wrapping once. */
  lemma WrapAdd32(a: int, x: int)
    ensures Wrap32(Wrap32(a) + x) == Wrap32(a + x)
  {
    var y := Wrap32(a) + x;
    var q := a / 0x1_0000_0000;
    var d := y / 0x1_0000_0000;
    assert a == q * 0x1_0000_0000 + Wrap32(a);
    assert y == d * 0x1_0000_0000 + Wrap32(y);
    assert a + x == (d + q) * 0x1_0000_0000 + Wrap32(y);
    Mod32Unique(a + x, d + q, Wrap32(y));
  }

  /** A number written as k * 2^32 + r with r in range wraps to r. */
  lemma Mod32Unique(n: int, k: int, r: int)
    requires 0 <= r < 0x1_0000_0000 && n == k * 0x1_0000_0000 + r
    ensures Wrap32(n) == r
  {
  }

  /** Unsigned 64-bit wrap-around (uint64_t arithmetic). */
  function Wrap64(x: int): (r: uint64)
    ensures 0 <= x < 0x1_0000_0000_0000_0000 ==> r == x
  {
    x % 0x1_0000_0000_0000_0000
  }

  /** Multiplier of the media-timeout formula (NON_REPORTING_THRESHOLD). */
  const NonReportingThreshold: nat := 5

  /** A compact NTP interval counts units of 1/65536 s in 32 bits, so it spans
      less than 65,536 s: no RTT converted from it exceeds this many ms. */
  const MaxRttMs: nat := 65_536_000

  /** Round-trip times in ms as the compact-NTP-to-ms conversion returns them. */
  type RttMs = x: int | 0 <= x <= MaxRttMs

  /** The trigger kinds (CbTriggerTypes), a closed set of five. */
  datatype CbTriggerType = NoTrigger | RtcpTimeout | MediaTimeout | Congestion | MediaUsability

  /** The numeric value of each trigger kind in the enum declaration. */
  function TriggerCode(k: CbTriggerType): (n: nat)
    ensures n <= 4
    ensures n == 0 <==> k == NoTrigger
  {
    match k
    case NoTrigger => 0
    case RtcpTimeout => 1
    case MediaTimeout => 2
    case Congestion => 3
    case MediaUsability => 4
  }

  /** The trigger kind with a given enum value. */
  function TriggerFromCode(n: nat): (k: CbTriggerType)
    requires n <= 4
    ensures TriggerCode(k) == n
  {
    if n == 0 then NoTrigger
    else if n == 1 then RtcpTimeout
    else if n == 2 then MediaTimeout
    else if n == 3 then Congestion
    else MediaUsability
  }

  /** The four sticky trigger flags. */
  datatype Triggers = Triggers(mediaTimeout: bool, rtcpTimeout: bool, congestion: bool, mediaUsability: bool)

  const NoTriggers := Triggers(false, false, false, false)

  /** One buffered loss sample (ReportBlockInfo). */
  datatype ReportBlockInfo = ReportBlockInfo(dlsr: uint32, fractionLost: uint8)

  /** Per-SSRC stall bookkeeping (MediaTimeoutStruct). */
  datatype MediaTimeoutStruct = MediaTimeoutStruct(
    mediaTimeout: uint32,
    mediaTimeoutCounter: uint32,
    extendedHighestSequenceNumber: uint32)

  /** The zero-initialised struct a map lookup with operator[] inserts. */
  const ZeroMediaTimeout := MediaTimeoutStruct(0, 0, 0)

  /** Per-SSRC congestion state: the pair (CB interval, smoothed RTT) and the
      list of buffered loss samples. */
  datatype ReportHistory = ReportHistory(cbInterval: uint32, rttSmoothed: uint64, reportBlocks: seq<ReportBlockInfo>)

  /** The fields of an RTCP reception report block that the breaker reads. */
  datatype ReportBlock = ReportBlock(
    senderSsrc: uint32,
    lastSenderReportTimestamp: uint32,
    delaySinceLastSenderReport: uint32,
    extendedHighestSequenceNumber: uint32,
    fractionLost: uint8)

  /** The video codec types the codec setter distinguishes; any other value
      of the enum is Unknown. */
  datatype VideoCodecType = VideoNone | VideoGeneric | VideoVp8 | VideoVp9 | VideoH264 | VideoStereo | VideoUnknown

  /** A non-negative rational number num/den, used for loss fractions. */
  datatype Ratio = Ratio(num: nat, den: nat)
}
