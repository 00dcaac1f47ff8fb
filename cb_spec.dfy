/** The circuit breaker as a value: the whole state of a CircuitBreaker object
    and, for each operation, a function giving the state after it. The class
    in CbBreaker is proved to follow these functions; the lemmas in
    CbProperties state what they guarantee. */
module CbSpec {
  import opened CbTypes
  import opened CbFormulas

  /** What the external collaborators answer while one report block is
      processed: the compact NTP receive time (the clock), the send frame
      rate and the actual send bitrate (the RTP sender). */
  datatype Readings = Readings(receiveTimeNtp: uint32, sendFrameRate: PosInt, actualSendBitrateKbit: uint32)

  /** The state of one circuit breaker, field by field as the class holds it. */
  datatype Breaker = Breaker(
    triggers: Triggers,
    sending: bool,
    previousReportBlocks: map<uint32, ReportHistory>,
    mediaTimeoutMap: map<uint32, MediaTimeoutStruct>,
    initialCbInterval: uint32,
    frameGroupSize: uint32,
    mediaFramingInterval: nat,
    rtcpInterval: uint32,
    rtcpIntervalSenderEstimate: uint32,
    packetSizes: seq<uint32>,
    packetSize: uint32)
  {
    /** The invariant every operation keeps: G is 1, the estimated RTCP
        interval is a usable divisor, the framing interval comes from a
        positive frame rate, RTTs come from compact NTP intervals, every CB
        interval is at least one report, the packet window holds at most 4*G
        sizes, and stall bookkeeping exists only for SSRCs already seen. */
    predicate Valid()
    {
      && frameGroupSize == 1
      && 0 < rtcpIntervalSenderEstimate <= MaxIntervalMs
      && rtcpInterval <= MaxIntervalMs
      && mediaFramingInterval <= MaxFramingIntervalMs
      && initialCbInterval >= 1
      && mediaTimeoutMap.Keys <= previousReportBlocks.Keys
      && (forall ssrc :: ssrc in previousReportBlocks ==>
            previousReportBlocks[ssrc].rttSmoothed <= MaxRttMs && previousReportBlocks[ssrc].cbInterval >= 1)
      && |packetSizes| <= 4 * frameGroupSize
    }
  }

  /** The fields no report block changes. */
  predicate SameConfiguration(s: Breaker, t: Breaker)
  {
    && t.sending == s.sending
    && t.initialCbInterval == s.initialCbInterval
    && t.frameGroupSize == s.frameGroupSize
    && t.rtcpInterval == s.rtcpInterval
    && t.rtcpIntervalSenderEstimate == s.rtcpIntervalSenderEstimate
    && t.packetSizes == s.packetSizes
    && t.packetSize == s.packetSize
  }

  /** What processing report blocks may change: no configuration, and no
      flag other than media timeout and congestion, which it only raises. */
  predicate ReportStep(s: Breaker, t: Breaker)
  {
    && SameConfiguration(s, t)
    && TriggersBelow(s.triggers, t.triggers)
    && t.triggers.rtcpTimeout == s.triggers.rtcpTimeout
    && t.triggers.mediaUsability == s.triggers.mediaUsability
  }

  /** Every flag raised in a is raised in b. */
  predicate TriggersBelow(a: Triggers, b: Triggers)
  {
    && (a.mediaTimeout ==> b.mediaTimeout)
    && (a.rtcpTimeout ==> b.rtcpTimeout)
    && (a.congestion ==> b.congestion)
    && (a.mediaUsability ==> b.mediaUsability)
  }

  /** A freshly constructed breaker. Both RTCP intervals start at half the
      default video RTCP interval, the framing interval at 1000/24 ms, and the
      CB interval for new SSRCs is computed from those and a 100 ms RTT. */
  function Initial(rtcpIntervalVideoMs: nat): (s: Breaker)
    requires 2 <= rtcpIntervalVideoMs && rtcpIntervalVideoMs / 2 <= MaxIntervalMs
    ensures s.Valid()
    ensures s.triggers == NoTriggers && s.sending
    ensures s.previousReportBlocks == map[] && s.mediaTimeoutMap == map[] && s.packetSizes == []
    ensures s.frameGroupSize == 1
    ensures s.rtcpInterval == s.rtcpIntervalSenderEstimate == rtcpIntervalVideoMs / 2
  {
    var interval := rtcpIntervalVideoMs / 2;
    Breaker(NoTriggers, true, map[], map[],
            CbIntervalFormula(1, InitialFramingIntervalMs, InitialRttMs, interval, interval),
            1, InitialFramingIntervalMs, interval, interval, [], 0)
  }

  /** Raising one trigger: each kind sets its own flag, NoTrigger nothing. */
  function HandleTriggeredCircuitBreaker(t: Triggers, k: CbTriggerType): (r: Triggers)
    ensures TriggersBelow(t, r)
    ensures k == NoTrigger ==> r == t
  {
    match k
    case NoTrigger => t
    case RtcpTimeout => t.(rtcpTimeout := true)
    case MediaTimeout => t.(mediaTimeout := true)
    case Congestion => t.(congestion := true)
    case MediaUsability => t.(mediaUsability := true)
  }

  /** The flags in the order the status array lists them. */
  function GetCbStatus(t: Triggers): (r: seq<bool>)
    ensures |r| == 4
  {
    [t.mediaTimeout, t.rtcpTimeout, t.congestion, t.mediaUsability]
  }

  /** The position of each trigger kind in the status array; it differs from
      the enum value (media timeout comes first). */
  function StatusIndex(k: CbTriggerType): (i: nat)
    requires k != NoTrigger
    ensures i < 4
    ensures i == if k == RtcpTimeout then 1 else if k == MediaTimeout then 0 else TriggerCode(k) - 1
  {
    match k
    case MediaTimeout => 0
    case RtcpTimeout => 1
    case Congestion => 2
    case MediaUsability => 3
  }

  /** The stall bookkeeping of an SSRC as operator[] sees it: a missing entry
      reads (and is inserted) as all zeros. */
  function MediaTimeoutEntry(s: Breaker, ssrc: uint32): (m: MediaTimeoutStruct)
    ensures ssrc !in s.mediaTimeoutMap ==> m == ZeroMediaTimeout
  {
    if ssrc in s.mediaTimeoutMap then s.mediaTimeoutMap[ssrc] else ZeroMediaTimeout
  }

  /** The media timeout for a known SSRC from its smoothed RTT (read as
      uint32), the current framing interval and the estimated RTCP interval. */
  function CalculateMediaTimeout(s: Breaker, ssrc: uint32): (t: uint32)
    requires s.Valid() && ssrc in s.previousReportBlocks
    ensures NonReportingThreshold <= t
    ensures t * s.rtcpIntervalSenderEstimate
            >= NonReportingThreshold * Max(Max(s.mediaFramingInterval, s.previousReportBlocks[ssrc].rttSmoothed),
                                           s.rtcpIntervalSenderEstimate)
  {
    MediaTimeoutFormula(s.mediaFramingInterval, Wrap32(s.previousReportBlocks[ssrc].rttSmoothed), s.rtcpIntervalSenderEstimate)
  }

  /** Inserting a first-seen SSRC: CB interval from construction time, the
      new RTT as smoothed RTT, no samples. No stall bookkeeping is stored. */
  function InsertNewSsrc(s: Breaker, ssrc: uint32, rttNew: RttMs): (t: Breaker)
    requires s.Valid() && ssrc !in s.previousReportBlocks
    ensures t.Valid() && ssrc in t.previousReportBlocks
    ensures ReportStep(s, t) && t.triggers == s.triggers
  {
    s.(previousReportBlocks := s.previousReportBlocks[ssrc := ReportHistory(s.initialCbInterval, rttNew, [])])
  }

  /** Stall detection and RTT blending for an SSRC seen before. A sequence
      number that did not increase counts one more stalled report, raises the
      media-timeout trigger if the count now equals the stored timeout, and
      then raises the stored timeout to the recalculated one if that is
      larger. A sequence number that increased resets the count and sets the
      timeout afresh (0 when not sending). Either way the sequence number is
      stored and the smoothed RTT blends in the new RTT. */
  function UpdateKnownSsrc(s: Breaker, b: ReportBlock, rttNew: RttMs): (t: Breaker)
    requires s.Valid() && b.senderSsrc in s.previousReportBlocks
    ensures t.Valid()
    ensures t.previousReportBlocks.Keys == s.previousReportBlocks.Keys
    ensures ReportStep(s, t)
  {
    var ssrc := b.senderSsrc;
    var entry := MediaTimeoutEntry(s, ssrc);
    var candidate := CalculateMediaTimeout(s, ssrc);
    var stalled := b.extendedHighestSequenceNumber <= entry.extendedHighestSequenceNumber;
    var counter := if stalled then Wrap32(entry.mediaTimeoutCounter + 1) else 0;
    var timeout: uint32 :=
      if !stalled then (if s.sending then candidate else 0)
      else if candidate > entry.mediaTimeout then candidate
      else entry.mediaTimeout;
    var triggers :=
      if stalled && counter == entry.mediaTimeout then HandleTriggeredCircuitBreaker(s.triggers, MediaTimeout)
      else s.triggers;
    var history := s.previousReportBlocks[ssrc];
    s.(triggers := triggers,
       mediaTimeoutMap := s.mediaTimeoutMap[ssrc := MediaTimeoutStruct(timeout, counter, b.extendedHighestSequenceNumber)],
       previousReportBlocks := s.previousReportBlocks[ssrc := history.(rttSmoothed := SmoothRtt(history.rttSmoothed, rttNew))])
  }

  /** Buffering the loss sample of a report block. When the buffer then holds
      more samples than the SSRC's CB interval, it is evaluated and emptied:
      the loss event rate of the samples, with the packet size and smoothed
      RTT, gives a TCP rate, and the congestion trigger is raised when the
      actual sending rate exceeds ten times it. */
  function AddReportBlockInfo(
    s: Breaker, b: ReportBlock, r: Readings, tcpRateOf: (uint32, uint64, Ratio) -> uint64): (t: Breaker)
    requires s.Valid() && b.senderSsrc in s.previousReportBlocks
    ensures t.Valid()
    ensures t.previousReportBlocks.Keys == s.previousReportBlocks.Keys
    ensures ReportStep(s, t)
  {
    var ssrc := b.senderSsrc;
    var history := s.previousReportBlocks[ssrc];
    var blocks := history.reportBlocks + [ReportBlockInfo(b.delaySinceLastSenderReport, b.fractionLost)];
    if |blocks| > history.cbInterval then
      var tcpRate := tcpRateOf(s.packetSize, history.rttSmoothed, LossEventRate(blocks));
      var triggers :=
        if Congested(SendingRate(r.actualSendBitrateKbit), tcpRate) then HandleTriggeredCircuitBreaker(s.triggers, Congestion)
        else s.triggers;
      s.(triggers := triggers, previousReportBlocks := s.previousReportBlocks[ssrc := history.(reportBlocks := [])])
    else
      s.(previousReportBlocks := s.previousReportBlocks[ssrc := history.(reportBlocks := blocks)])
  }

  /** Refreshing the framing interval from the send frame rate and
      recomputing the SSRC's CB interval from it and the smoothed RTT. */
  function RecalculateCbInterval(s: Breaker, ssrc: uint32, fps: PosInt): (t: Breaker)
    requires s.Valid() && ssrc in s.previousReportBlocks
    ensures t.Valid()
    ensures t.previousReportBlocks.Keys == s.previousReportBlocks.Keys
    ensures ReportStep(s, t) && t.triggers == s.triggers
    ensures t.mediaFramingInterval * fps <= 1000 < (t.mediaFramingInterval + 1) * fps
    ensures 1 <= t.previousReportBlocks[ssrc].cbInterval <= Max(15, 3 * s.rtcpInterval)
  {
    var framing := GetInterFrameArrival(fps);
    var history := s.previousReportBlocks[ssrc];
    var window := CbIntervalFormula(s.frameGroupSize, framing, history.rttSmoothed, s.rtcpIntervalSenderEstimate, s.rtcpInterval);
    s.(mediaFramingInterval := framing,
       previousReportBlocks := s.previousReportBlocks[ssrc := history.(cbInterval := window)])
  }

  /** The RTT of a report block in ms: receive time minus DLSR minus LSR in
      compact NTP units, converted by the collaborator. With
      CompactRttUnique, the interval converted is the only one that adds
      back to the receive time. */
  function BlockRtt(b: ReportBlock, r: Readings, rttToMs: uint32 -> RttMs): (rtt: RttMs)
    ensures exists c: uint32 ::
              Wrap32(c + b.delaySinceLastSenderReport + b.lastSenderReportTimestamp) == r.receiveTimeNtp
              && rtt == rttToMs(c)
  {
    rttToMs(CompactRtt(r.receiveTimeNtp, b.delaySinceLastSenderReport, b.lastSenderReportTimestamp))
  }

  /** Processing one report block. A block with a zero LSR is skipped. */
  function OnReportBlock(
    s: Breaker, b: ReportBlock, r: Readings,
    rttToMs: uint32 -> RttMs, tcpRateOf: (uint32, uint64, Ratio) -> uint64): (t: Breaker)
    requires s.Valid()
    ensures t.Valid()
    ensures ReportStep(s, t)
    ensures b.lastSenderReportTimestamp == 0 ==> t == s
    ensures b.lastSenderReportTimestamp != 0 ==>
              t.previousReportBlocks.Keys == s.previousReportBlocks.Keys + {b.senderSsrc}
  {
    if b.lastSenderReportTimestamp == 0 then s
    else
      var rttNew := BlockRtt(b, r, rttToMs);
      var s1 := if b.senderSsrc !in s.previousReportBlocks then InsertNewSsrc(s, b.senderSsrc, rttNew)
                else UpdateKnownSsrc(s, b, rttNew);
      var s2 := AddReportBlockInfo(s1, b, r, tcpRateOf);
      RecalculateCbInterval(s2, b.senderSsrc, r.sendFrameRate)
  }

  /** Processing a list of report blocks in order, block i with readings i. */
  function OnReportBlocks(
    s: Breaker, blocks: seq<ReportBlock>, readings: seq<Readings>,
    rttToMs: uint32 -> RttMs, tcpRateOf: (uint32, uint64, Ratio) -> uint64): (t: Breaker)
    requires s.Valid() && |readings| == |blocks|
    ensures t.Valid()
    ensures ReportStep(s, t)
    decreases |blocks|
  {
    if blocks == [] then s
    else
      var n := |blocks| - 1;
      OnReportBlock(OnReportBlocks(s, blocks[..n], readings[..n], rttToMs, tcpRateOf), blocks[n], readings[n], rttToMs, tcpRateOf)
  }

  /** The packet-size window after a push: the oldest entry is dropped when
      the window holds exactly `capacity` entries, then the new size is
      appended. A window already over capacity is never trimmed. */
  function PushWindow(window: seq<uint32>, size: uint32, capacity: nat): (r: seq<uint32>)
    requires capacity > 0
    ensures |window| <= capacity ==>
              |r| == Min(|window| + 1, capacity) && r == (window + [size])[|window| + 1 - |r|..]
    ensures |window| > capacity ==> r == window + [size]
  {
    (if |window| == capacity then window[1..] else window) + [size]
  }

  /** Pushing a packet size: the size (truncated to uint32) enters the window
      and the packet size becomes the window's average. */
  function PushPacketSize(s: Breaker, packetSize: uint64): (t: Breaker)
    requires s.Valid()
    ensures t.Valid()
    ensures t == s.(packetSizes := t.packetSizes, packetSize := t.packetSize)
    ensures t.packetSizes == PushWindow(s.packetSizes, Wrap32(packetSize), 4 * s.frameGroupSize)
    ensures t.packetSizes != [] && t.packetSizes[|t.packetSizes| - 1] == Wrap32(packetSize)
    ensures t.packetSize == AveragePacketSize(t.packetSizes)
  {
    var window := PushWindow(s.packetSizes, Wrap32(packetSize), 4 * s.frameGroupSize);
    s.(packetSizes := window, packetSize := AveragePacketSize(window))
  }

  /** Recording the configured and the receiver-estimated RTCP intervals. The
      CB interval used for new SSRCs is not recomputed. */
  function SetRtcpInterval(s: Breaker, rtcpInterval: uint32, estimate: uint32): (t: Breaker)
    requires s.Valid() && 0 < estimate <= MaxIntervalMs && rtcpInterval <= MaxIntervalMs
    ensures t.Valid()
    ensures t.rtcpInterval == rtcpInterval && t.rtcpIntervalSenderEstimate == estimate
    ensures t.initialCbInterval == s.initialCbInterval
  {
    s.(rtcpInterval := rtcpInterval, rtcpIntervalSenderEstimate := estimate)
  }

  /** The codecs for which the setter sets G and the framing interval. */
  predicate IsFramedCodec(codec: VideoCodecType)
  {
    codec == VideoVp8 || codec == VideoVp9 || codec == VideoH264 || codec == VideoGeneric
  }

  /** Setting the codec: VP8, VP9, H264 and generic video set G to 1 and
      refresh the framing interval; the other types change only the
      diagnostic label, which is not modelled. */
  function SetVideoCodecType(s: Breaker, codec: VideoCodecType, fps: PosInt): (t: Breaker)
    requires s.Valid()
    ensures t.Valid() && t.frameGroupSize == 1
    ensures IsFramedCodec(codec) ==>
              (t == s.(mediaFramingInterval := t.mediaFramingInterval)
               && t.mediaFramingInterval * fps <= 1000 < (t.mediaFramingInterval + 1) * fps)
    ensures !IsFramedCodec(codec) ==> t == s
  {
    match codec
    case VideoVp8 => s.(frameGroupSize := 1, mediaFramingInterval := GetInterFrameArrival(fps))
    case VideoVp9 => s.(frameGroupSize := 1, mediaFramingInterval := GetInterFrameArrival(fps))
    case VideoH264 => s.(frameGroupSize := 1, mediaFramingInterval := GetInterFrameArrival(fps))
    case VideoGeneric => s.(frameGroupSize := 1, mediaFramingInterval := GetInterFrameArrival(fps))
    case VideoNone => s
    case VideoStereo => s
    case VideoUnknown => s
  }
}
