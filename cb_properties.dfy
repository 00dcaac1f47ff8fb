/** What processing a report block, pushing a packet size and raising a
    trigger guarantee, stated over the functions of CbSpec. */
module CbProperties {
  import opened CbTypes
  import opened CbFormulas
  import opened CbSpec

  /** A first-seen SSRC gets an entry whose smoothed RTT is the block's RTT,
      whose buffer holds the block's one loss sample and whose CB interval is
      recomputed from the fresh framing interval. The media-timeout struct
      prepared for it is dropped: no stall bookkeeping is stored, and no
      trigger is raised. */
  lemma FirstReportCreatesEntry(
    s: Breaker, b: ReportBlock, r: Readings,
    rttToMs: uint32 -> RttMs, tcpRateOf: (uint32, uint64, Ratio) -> uint64)
    requires s.Valid() && b.lastSenderReportTimestamp != 0 && b.senderSsrc !in s.previousReportBlocks
    ensures var t := OnReportBlock(s, b, r, rttToMs, tcpRateOf);
            && t.previousReportBlocks[b.senderSsrc].rttSmoothed == BlockRtt(b, r, rttToMs)
            && t.previousReportBlocks[b.senderSsrc].reportBlocks
               == [ReportBlockInfo(b.delaySinceLastSenderReport, b.fractionLost)]
            && t.previousReportBlocks[b.senderSsrc].cbInterval
               == CbIntervalFormula(1, GetInterFrameArrival(r.sendFrameRate), BlockRtt(b, r, rttToMs),
                                    s.rtcpIntervalSenderEstimate, s.rtcpInterval)
            && t.mediaTimeoutMap == s.mediaTimeoutMap
            && b.senderSsrc !in t.mediaTimeoutMap
            && t.triggers == s.triggers
  {
  }

  /** A block that did not advance the sequence number of a known SSRC
      increments its stall counter (in uint32), raises the media-timeout flag
      exactly when the incremented counter equals the timeout stored BEFORE
      this block, then keeps the larger of the stored and the recalculated
      timeout, and records the block's sequence number. */
  lemma StallBranch(
    s: Breaker, b: ReportBlock, r: Readings,
    rttToMs: uint32 -> RttMs, tcpRateOf: (uint32, uint64, Ratio) -> uint64)
    requires s.Valid() && b.lastSenderReportTimestamp != 0 && b.senderSsrc in s.previousReportBlocks
    requires b.extendedHighestSequenceNumber <= MediaTimeoutEntry(s, b.senderSsrc).extendedHighestSequenceNumber
    ensures var t := OnReportBlock(s, b, r, rttToMs, tcpRateOf);
            var before := MediaTimeoutEntry(s, b.senderSsrc);
            var after := t.mediaTimeoutMap[b.senderSsrc];
            && b.senderSsrc in t.mediaTimeoutMap
            && after.mediaTimeoutCounter == Wrap32(before.mediaTimeoutCounter + 1)
            && (t.triggers.mediaTimeout <==> s.triggers.mediaTimeout || after.mediaTimeoutCounter == before.mediaTimeout)
            && after.mediaTimeout == Max(before.mediaTimeout, CalculateMediaTimeout(s, b.senderSsrc))
            && after.extendedHighestSequenceNumber == b.extendedHighestSequenceNumber
  {
  }

  /** The stall counter counts up by exactly one while it is below 2^32 - 1,
      and the stored timeout never falls during a stall. */
  lemma StallCounterCountsOne(
    s: Breaker, b: ReportBlock, r: Readings,
    rttToMs: uint32 -> RttMs, tcpRateOf: (uint32, uint64, Ratio) -> uint64)
    requires s.Valid() && b.lastSenderReportTimestamp != 0 && b.senderSsrc in s.previousReportBlocks
    requires b.extendedHighestSequenceNumber <= MediaTimeoutEntry(s, b.senderSsrc).extendedHighestSequenceNumber
    requires MediaTimeoutEntry(s, b.senderSsrc).mediaTimeoutCounter < 0xFFFF_FFFF
    ensures var t := OnReportBlock(s, b, r, rttToMs, tcpRateOf);
            var before := MediaTimeoutEntry(s, b.senderSsrc);
            && t.mediaTimeoutMap[b.senderSsrc].mediaTimeoutCounter == before.mediaTimeoutCounter + 1
            && t.mediaTimeoutMap[b.senderSsrc].mediaTimeout >= before.mediaTimeout
  {
    StallBranch(s, b, r, rttToMs, tcpRateOf);
  }

  /** The sequence number is stored in the stall branch too, so a report with
      a lower number than the stored one writes the lower number back. */
  lemma StalledSequenceWrittenBack(
    s: Breaker, b: ReportBlock, r: Readings,
    rttToMs: uint32 -> RttMs, tcpRateOf: (uint32, uint64, Ratio) -> uint64)
    requires s.Valid() && b.lastSenderReportTimestamp != 0 && b.senderSsrc in s.previousReportBlocks
    requires b.extendedHighestSequenceNumber < MediaTimeoutEntry(s, b.senderSsrc).extendedHighestSequenceNumber
    ensures var t := OnReportBlock(s, b, r, rttToMs, tcpRateOf);
            t.mediaTimeoutMap[b.senderSsrc].extendedHighestSequenceNumber
            < MediaTimeoutEntry(s, b.senderSsrc).extendedHighestSequenceNumber
  {
    StallBranch(s, b, r, rttToMs, tcpRateOf);
  }

  /** A block that advanced the sequence number of a known SSRC resets the
      stall counter, sets the timeout afresh (0 when not sending), records the
      sequence number and leaves the media-timeout flag alone. */
  lemma ProgressBranch(
    s: Breaker, b: ReportBlock, r: Readings,
    rttToMs: uint32 -> RttMs, tcpRateOf: (uint32, uint64, Ratio) -> uint64)
    requires s.Valid() && b.lastSenderReportTimestamp != 0 && b.senderSsrc in s.previousReportBlocks
    requires b.extendedHighestSequenceNumber > MediaTimeoutEntry(s, b.senderSsrc).extendedHighestSequenceNumber
    ensures var t := OnReportBlock(s, b, r, rttToMs, tcpRateOf);
            && b.senderSsrc in t.mediaTimeoutMap
            && t.mediaTimeoutMap[b.senderSsrc]
               == MediaTimeoutStruct(if s.sending then CalculateMediaTimeout(s, b.senderSsrc) else 0,
                                     0, b.extendedHighestSequenceNumber)
            && t.triggers.mediaTimeout == s.triggers.mediaTimeout
  {
  }

  /** Because the first report's sequence number is never stored, the second
      report of an SSRC compares against zero: any non-zero sequence number
      counts as progress, even one below the first report's. */
  lemma SecondReportComparesWithZero(
    s: Breaker, b1: ReportBlock, r1: Readings, b2: ReportBlock, r2: Readings,
    rttToMs: uint32 -> RttMs, tcpRateOf: (uint32, uint64, Ratio) -> uint64)
    requires s.Valid() && b1.senderSsrc !in s.previousReportBlocks
    requires b1.lastSenderReportTimestamp != 0 && b2.lastSenderReportTimestamp != 0
    requires b2.senderSsrc == b1.senderSsrc && b2.extendedHighestSequenceNumber > 0
    ensures var s1 := OnReportBlock(s, b1, r1, rttToMs, tcpRateOf);
            var t := OnReportBlock(s1, b2, r2, rttToMs, tcpRateOf);
            && b2.senderSsrc in t.mediaTimeoutMap
            && t.mediaTimeoutMap[b2.senderSsrc].mediaTimeoutCounter == 0
            && t.triggers.mediaTimeout == s.triggers.mediaTimeout
  {
    var s1 := OnReportBlock(s, b1, r1, rttToMs, tcpRateOf);
    FirstReportCreatesEntry(s, b1, r1, rttToMs, tcpRateOf);
    assert MediaTimeoutEntry(s1, b2.senderSsrc) == ZeroMediaTimeout;
    ProgressBranch(s1, b2, r2, rttToMs, tcpRateOf);
  }

  /** For a known SSRC the smoothed RTT blends in the block's RTT with weight
      0.2, and stays between the old value and the new RTT. */
  lemma RttBlended(
    s: Breaker, b: ReportBlock, r: Readings,
    rttToMs: uint32 -> RttMs, tcpRateOf: (uint32, uint64, Ratio) -> uint64)
    requires s.Valid() && b.lastSenderReportTimestamp != 0 && b.senderSsrc in s.previousReportBlocks
    ensures var t := OnReportBlock(s, b, r, rttToMs, tcpRateOf);
            var prev := s.previousReportBlocks[b.senderSsrc].rttSmoothed;
            && t.previousReportBlocks[b.senderSsrc].rttSmoothed == SmoothRtt(prev, BlockRtt(b, r, rttToMs))
            && Min(prev, BlockRtt(b, r, rttToMs)) <= t.previousReportBlocks[b.senderSsrc].rttSmoothed
            && t.previousReportBlocks[b.senderSsrc].rttSmoothed <= Max(prev, BlockRtt(b, r, rttToMs))
  {
  }

  /** The loss sample buffer of a known SSRC: the block's sample is appended;
      if the buffer then holds more samples than the SSRC's CB interval, it
      is evaluated and emptied, and the congestion flag is raised exactly when
      the evaluation finds congestion; otherwise the flag is untouched. Either
      way the buffer ends no longer than the CB interval that was checked. */
  lemma SampleBufferEvaluated(
    s: Breaker, b: ReportBlock, r: Readings,
    rttToMs: uint32 -> RttMs, tcpRateOf: (uint32, uint64, Ratio) -> uint64)
    requires s.Valid() && b.lastSenderReportTimestamp != 0 && b.senderSsrc in s.previousReportBlocks
    ensures var t := OnReportBlock(s, b, r, rttToMs, tcpRateOf);
            var history := s.previousReportBlocks[b.senderSsrc];
            var samples := history.reportBlocks + [ReportBlockInfo(b.delaySinceLastSenderReport, b.fractionLost)];
            var rtt := SmoothRtt(history.rttSmoothed, BlockRtt(b, r, rttToMs));
            var congested := Congested(SendingRate(r.actualSendBitrateKbit), tcpRateOf(s.packetSize, rtt, LossEventRate(samples)));
            && (|samples| > history.cbInterval ==>
                  && t.previousReportBlocks[b.senderSsrc].reportBlocks == []
                  && (t.triggers.congestion <==> s.triggers.congestion || congested))
            && (|samples| <= history.cbInterval ==>
                  && t.previousReportBlocks[b.senderSsrc].reportBlocks == samples
                  && t.triggers.congestion == s.triggers.congestion)
            && |t.previousReportBlocks[b.senderSsrc].reportBlocks| <= history.cbInterval
  {
  }

  /** The CB interval is recomputed last, from the block's fresh framing
      interval and the SSRC's new smoothed RTT, and lies between 1 and
      max(15, 3 * RTCP interval). */
  lemma CbIntervalRecomputed(
    s: Breaker, b: ReportBlock, r: Readings,
    rttToMs: uint32 -> RttMs, tcpRateOf: (uint32, uint64, Ratio) -> uint64)
    requires s.Valid() && b.lastSenderReportTimestamp != 0
    ensures var t := OnReportBlock(s, b, r, rttToMs, tcpRateOf);
            && t.mediaFramingInterval == GetInterFrameArrival(r.sendFrameRate)
            && t.previousReportBlocks[b.senderSsrc].cbInterval
               == CbIntervalFormula(1, t.mediaFramingInterval, t.previousReportBlocks[b.senderSsrc].rttSmoothed,
                                    s.rtcpIntervalSenderEstimate, s.rtcpInterval)
            && 1 <= t.previousReportBlocks[b.senderSsrc].cbInterval <= Max(15, 3 * s.rtcpInterval)
  {
  }

  /** A block touches only its own SSRC's entries. */
  lemma OtherSsrcsUnchanged(
    s: Breaker, b: ReportBlock, r: Readings,
    rttToMs: uint32 -> RttMs, tcpRateOf: (uint32, uint64, Ratio) -> uint64, other: uint32)
    requires s.Valid() && other != b.senderSsrc
    ensures var t := OnReportBlock(s, b, r, rttToMs, tcpRateOf);
            && (other in t.previousReportBlocks <==> other in s.previousReportBlocks)
            && (other in s.previousReportBlocks ==> t.previousReportBlocks[other] == s.previousReportBlocks[other])
            && (other in t.mediaTimeoutMap <==> other in s.mediaTimeoutMap)
            && (other in s.mediaTimeoutMap ==> t.mediaTimeoutMap[other] == s.mediaTimeoutMap[other])
  {
  }

  /** Raising a trigger sets exactly its slot of the status array and leaves
      the other three as they were. */
  lemma RaiseSetsExactlyOneFlag(t: Triggers, k: CbTriggerType)
    requires k != NoTrigger
    ensures GetCbStatus(HandleTriggeredCircuitBreaker(t, k))[StatusIndex(k)]
    ensures forall i :: 0 <= i < 4 && i != StatusIndex(k) ==>
              GetCbStatus(HandleTriggeredCircuitBreaker(t, k))[i] == GetCbStatus(t)[i]
  {
  }

  /** The enum values of the trigger kinds round-trip. */
  lemma TriggerCodesRoundTrip(k: CbTriggerType)
    ensures TriggerFromCode(TriggerCode(k)) == k
  {
  }

  /** Pushing sizes one after another, starting from a given window. */
  function PushAll(window: seq<uint32>, sizes: seq<uint32>, capacity: nat): seq<uint32>
    requires capacity > 0
    decreases |sizes|
  {
    if sizes == [] then window
    else PushWindow(PushAll(window, sizes[..|sizes| - 1], capacity), sizes[|sizes| - 1], capacity)
  }

  /** Starting from an empty window, the window always holds the most recent
      min(n, capacity) of the n sizes pushed, oldest first. */
  lemma {:induction false} PushAllKeepsMostRecent(sizes: seq<uint32>, capacity: nat)
    requires capacity > 0
    ensures PushAll([], sizes, capacity) == sizes[|sizes| - Min(|sizes|, capacity)..]
    decreases |sizes|
  {
    if sizes != [] {
      var n := |sizes| - 1;
      var prefix := sizes[..n];
      assert |prefix| == n;
      PushAllKeepsMostRecent(prefix, capacity);
      var w := PushAll([], prefix, capacity);
      assert w == prefix[n - Min(n, capacity)..];
      assert PushAll([], sizes, capacity) == PushWindow(w, sizes[n], capacity);
      PushWindowSlides(sizes, capacity);
    }
  }

  /** One push turns the most recent entries of a prefix into the most recent
      entries of the prefix extended by the pushed size. */
  lemma PushWindowSlides(sizes: seq<uint32>, capacity: nat)
    requires capacity > 0 && sizes != []
    ensures var n := |sizes| - 1;
            PushWindow(sizes[..n][n - Min(n, capacity)..], sizes[n], capacity)
            == sizes[|sizes| - Min(|sizes|, capacity)..]
  {
    var n := |sizes| - 1;
    var m := Min(n, capacity);
    var w := sizes[..n][n - m..];
    assert w == sizes[n - m..n];
    if m == capacity {
      assert w[1..] + [sizes[n]] == sizes[n - m + 1..];
    } else {
      assert w + [sizes[n]] == sizes;
    }
  }
}
