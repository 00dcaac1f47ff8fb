/** The circuit breaker object. Its fields are those of the source class; its
    methods update them in place and are each proved to leave the state that
    the matching function of CbSpec describes. The external collaborators (the
    clock, the RTP sender's frame rate and bitrate, the compact-NTP-to-ms
    conversion and the floating-point TCP rate formula) come in as
    parameters. */
module CbBreaker {
  import opened CbTypes
  import opened CbFormulas
  import CbSpec

  class CircuitBreaker {
    var mediaTimeoutCb: bool
    var rtcpTimeoutCb: bool
    var congestionCb: bool
    var mediaUsabilityCb: bool
    var sending: bool
    var previousReportBlocks: map<uint32, ReportHistory>
    var mediaTimeoutMap: map<uint32, MediaTimeoutStruct>
    var initialCbInterval: uint32
    var frameGroupSize: uint32
    var mediaFramingInterval: nat
    var rtcpInterval: uint32
    var rtcpIntervalSenderEstimate: uint32
    var packetSizes: seq<uint32>
    var packetSize: uint32

    /** The object's state as a value. */
    function Model(): CbSpec.Breaker
      reads this
    {
      CbSpec.Breaker(
        Triggers(mediaTimeoutCb, rtcpTimeoutCb, congestionCb, mediaUsabilityCb),
        sending, previousReportBlocks, mediaTimeoutMap, initialCbInterval, frameGroupSize,
        mediaFramingInterval, rtcpInterval, rtcpIntervalSenderEstimate, packetSizes, packetSize)
    }

    predicate Valid()
      reads this
    {
      Model().Valid()
    }

    /** Both RTCP intervals start at half of the default video RTCP interval,
        which is passed in. The packet size is 0 until the first push. */
    constructor (rtcpIntervalVideoMs: nat)
      requires 2 <= rtcpIntervalVideoMs && rtcpIntervalVideoMs / 2 <= MaxIntervalMs
      ensures Valid()
      ensures Model() == CbSpec.Initial(rtcpIntervalVideoMs)
    {
      mediaTimeoutCb, rtcpTimeoutCb, congestionCb, mediaUsabilityCb := false, false, false, false;
      sending := true;
      previousReportBlocks := map[];
      mediaTimeoutMap := map[];
      frameGroupSize := 1;
      var framing := InitialFramingIntervalMs;
      var interval := rtcpIntervalVideoMs / 2;
      var estimate := rtcpIntervalVideoMs / 2;
      var initialRtt := InitialRttMs;
      mediaFramingInterval := framing;
      rtcpInterval := interval;
      rtcpIntervalSenderEstimate := estimate;
      initialCbInterval := CbIntervalFormula(1, framing, initialRtt, estimate, interval);
      packetSizes := [];
      packetSize := 0;
    }

    /** Processes the report blocks of one RTCP report in order; readings[i]
        holds what the collaborators answer while block i is processed. */
    method OnReceivedRtcpReportBlocks(
      reportBlocks: seq<ReportBlock>, readings: seq<CbSpec.Readings>,
      rttToMs: uint32 -> RttMs, tcpRateOf: (uint32, uint64, Ratio) -> uint64)
      requires Valid() && |readings| == |reportBlocks|
      modifies this
      ensures Valid()
      ensures Model() == CbSpec.OnReportBlocks(old(Model()), reportBlocks, readings, rttToMs, tcpRateOf)
    {
      var i := 0;
      while i < |reportBlocks|
        invariant 0 <= i <= |reportBlocks|
        invariant Valid()
        invariant Model() == CbSpec.OnReportBlocks(old(Model()), reportBlocks[..i], readings[..i], rttToMs, tcpRateOf)
      {
        ProcessReportBlock(reportBlocks[i], readings[i], rttToMs, tcpRateOf);
        assert reportBlocks[..i + 1][..i] == reportBlocks[..i];
        assert readings[..i + 1][..i] == readings[..i];
        i := i + 1;
      }
      assert reportBlocks[..i] == reportBlocks;
      assert readings[..i] == readings;
    }

    /** The body of the loop over report blocks: one block. */
    method ProcessReportBlock(
      reportBlock: ReportBlock, reading: CbSpec.Readings,
      rttToMs: uint32 -> RttMs, tcpRateOf: (uint32, uint64, Ratio) -> uint64)
      requires Valid()
      modifies this
      ensures Valid()
      ensures Model() == CbSpec.OnReportBlock(old(Model()), reportBlock, reading, rttToMs, tcpRateOf)
    {
      var sendTimeNtp := reportBlock.lastSenderReportTimestamp;
      if sendTimeNtp != 0 {
        var delayNtp := reportBlock.delaySinceLastSenderReport;
        var receiveTimeNtp := reading.receiveTimeNtp;
        var rttNtp := Wrap32(receiveTimeNtp as int - delayNtp - sendTimeNtp);
        var rttNew := rttToMs(rttNtp);
        var ssrc := reportBlock.senderSsrc;
        ghost var s0 := Model();
        assert rttNew == CbSpec.BlockRtt(reportBlock, reading, rttToMs);
        if ssrc !in previousReportBlocks {
          previousReportBlocks := previousReportBlocks[ssrc := ReportHistory(initialCbInterval, rttNew, [])];
          assert Model() == CbSpec.InsertNewSsrc(s0, ssrc, rttNew);
        } else {
          UpdateMediaTimeout(reportBlock, rttNew);
        }
        ghost var s1 := Model();
        AddReportBlockInfo(reportBlock, reading, tcpRateOf);
        ghost var s2 := Model();
        assert s2 == CbSpec.AddReportBlockInfo(s1, reportBlock, reading, tcpRateOf);
        RecalculateCbInterval(ssrc, reading.sendFrameRate);
      }
    }

    /** Stall detection and RTT blending for an SSRC seen before; the stall
        bookkeeping is looked up as operator[] does, zeros when missing. The
        new state is valid because CbSpec.UpdateKnownSsrc's result is. */
    method UpdateMediaTimeout(reportBlock: ReportBlock, rttNew: RttMs)
      requires Valid() && reportBlock.senderSsrc in previousReportBlocks
      modifies this
      ensures Model() == CbSpec.UpdateKnownSsrc(old(Model()), reportBlock, rttNew)
    {
      var ssrc := reportBlock.senderSsrc;
      ghost var s0 := Model();
      ghost var candidate := CbSpec.CalculateMediaTimeout(s0, ssrc);
      var entry := if ssrc in mediaTimeoutMap then mediaTimeoutMap[ssrc] else ZeroMediaTimeout;
      assert entry == CbSpec.MediaTimeoutEntry(s0, ssrc);
      if reportBlock.extendedHighestSequenceNumber <= entry.extendedHighestSequenceNumber {
        entry := entry.(mediaTimeoutCounter := Wrap32(entry.mediaTimeoutCounter + 1));
        if entry.mediaTimeoutCounter == entry.mediaTimeout {
          HandleTriggeredCircuitBreaker(MediaTimeout);
        }
        assert Model() == s0.(triggers := Model().triggers);
        var newMediaTimeout := CalculateMediaTimeout(ssrc);
        assert newMediaTimeout == candidate;
        if newMediaTimeout > entry.mediaTimeout {
          entry := entry.(mediaTimeout := newMediaTimeout);
        }
      } else {
        entry := entry.(mediaTimeoutCounter := 0);
        if sending {
          var newMediaTimeout := CalculateMediaTimeout(ssrc);
          entry := entry.(mediaTimeout := newMediaTimeout);
        } else {
          entry := entry.(mediaTimeout := 0);
        }
      }
      entry := entry.(extendedHighestSequenceNumber := reportBlock.extendedHighestSequenceNumber);
      ghost var expected := CbSpec.UpdateKnownSsrc(s0, reportBlock, rttNew);
      assert Model().triggers == expected.triggers;
      assert entry == expected.mediaTimeoutMap[ssrc];
      mediaTimeoutMap := mediaTimeoutMap[ssrc := entry];
      var history := previousReportBlocks[ssrc];
      previousReportBlocks := previousReportBlocks[ssrc := history.(rttSmoothed := SmoothRtt(history.rttSmoothed, rttNew))];
      assert Model() == expected;
    }

    /** Buffers the block's loss sample; once the buffer holds more samples
        than the CB interval, averages the fraction lost over them, empties
        the buffer and compares the sending rate with the TCP rate. */
    method AddReportBlockInfo(
      reportBlock: ReportBlock, reading: CbSpec.Readings, tcpRateOf: (uint32, uint64, Ratio) -> uint64)
      requires Valid() && reportBlock.senderSsrc in previousReportBlocks
      modifies this
      ensures Valid()
      ensures Model() == CbSpec.AddReportBlockInfo(old(Model()), reportBlock, reading, tcpRateOf)
    {
      var ssrc := reportBlock.senderSsrc;
      var reportBlockInfo := ReportBlockInfo(reportBlock.delaySinceLastSenderReport, reportBlock.fractionLost);
      var history := previousReportBlocks[ssrc];
      previousReportBlocks := previousReportBlocks[ssrc := history.(reportBlocks := history.reportBlocks + [reportBlockInfo])];
      if |previousReportBlocks[ssrc].reportBlocks| > previousReportBlocks[ssrc].cbInterval {
        var lastInterval := previousReportBlocks[ssrc].reportBlocks;
        var lostSum := 0;
        var count := 0;
        while count < |lastInterval|
          invariant 0 <= count <= |lastInterval|
          invariant lostSum == SumLost(lastInterval[..count])
        {
          lostSum := lostSum + lastInterval[count].fractionLost;
          assert lastInterval[..count + 1][..count] == lastInterval[..count];
          count := count + 1;
        }
        assert lastInterval[..count] == lastInterval;
        previousReportBlocks := previousReportBlocks[ssrc := previousReportBlocks[ssrc].(reportBlocks := [])];
        var avgFractionLost := Ratio(lostSum, 256 * count);
        var lossEventRate := Ratio(avgFractionLost.num, 256 * avgFractionLost.den);
        var tcpRate := tcpRateOf(packetSize, previousReportBlocks[ssrc].rttSmoothed, lossEventRate);
        var sendingRate := SendingRate(reading.actualSendBitrateKbit);
        if sendingRate > Wrap64(10 * (tcpRate as int)) && tcpRate != 0 {
          HandleTriggeredCircuitBreaker(Congestion);
        }
      }
    }

    /** Refreshes the framing interval from the send frame rate and recomputes
        the SSRC's CB interval. */
    method RecalculateCbInterval(ssrc: uint32, sendFrameRate: PosInt)
      requires Valid() && ssrc in previousReportBlocks
      modifies this`mediaFramingInterval, this`previousReportBlocks
      ensures Valid()
      ensures Model() == CbSpec.RecalculateCbInterval(old(Model()), ssrc, sendFrameRate)
    {
      mediaFramingInterval := GetInterFrameArrival(sendFrameRate);
      var history := previousReportBlocks[ssrc];
      var window := CbIntervalFormula(frameGroupSize, mediaFramingInterval, history.rttSmoothed,
                                      rtcpIntervalSenderEstimate, rtcpInterval);
      previousReportBlocks := previousReportBlocks[ssrc := history.(cbInterval := window)];
    }

    /** The media timeout of a known SSRC, from its smoothed RTT read as uint32. */
    method CalculateMediaTimeout(ssrc: uint32) returns (timeout: uint32)
      requires Valid() && ssrc in previousReportBlocks
      ensures timeout == CbSpec.CalculateMediaTimeout(Model(), ssrc)
      ensures timeout >= NonReportingThreshold
    {
      var rtt := Wrap32(previousReportBlocks[ssrc].rttSmoothed);
      timeout := MediaTimeoutFormula(mediaFramingInterval, rtt, rtcpIntervalSenderEstimate);
    }

    /** Pushes a packet size into the window of the last 4*G sizes and sets
        the packet size to their average. */
    method PushPacketSize(packetSizeBytes: uint64)
      requires Valid()
      modifies this`packetSizes, this`packetSize
      ensures Valid()
      ensures Model() == CbSpec.PushPacketSize(old(Model()), packetSizeBytes)
    {
      var size := Wrap32(packetSizeBytes);
      var window := packetSizes;
      if |window| == 4 * frameGroupSize {
        window := window[1..];
      }
      window := window + [size];
      assert window == CbSpec.PushWindow(packetSizes, size, 4 * frameGroupSize);
      var avgPacketSize := AverageOf(window);
      ghost var expected := CbSpec.PushPacketSize(Model(), packetSizeBytes);
      packetSizes := window;
      packetSize := avgPacketSize;
      assert Model() == expected;
    }

    /** The averaging loop of the packet-size push: sums the window in uint32
        arithmetic and divides by its length. */
    static method AverageOf(window: seq<uint32>) returns (avgPacketSize: uint32)
      requires window != []
      ensures avgPacketSize == AveragePacketSize(window)
    {
      var total: uint32 := 0;
      var i := 0;
      while i < |window|
        invariant 0 <= i <= |window|
        invariant total == Wrap32(Sum(window[..i]))
      {
        WrappedSumStep(window, i);
        total := Wrap32(total as int + window[i]);
        i := i + 1;
      }
      assert window[..i] == window;
      avgPacketSize := total / |window|;
    }

    /** Records the configured RTCP interval and its receiver-side estimate. */
    method SetRtcpInterval(interval: uint32, intervalAtReceiverEstimate: uint32)
      requires Valid()
      requires 0 < intervalAtReceiverEstimate <= MaxIntervalMs && interval <= MaxIntervalMs
      modifies this`rtcpInterval, this`rtcpIntervalSenderEstimate
      ensures Valid()
      ensures Model() == CbSpec.SetRtcpInterval(old(Model()), interval, intervalAtReceiverEstimate)
    {
      rtcpIntervalSenderEstimate := intervalAtReceiverEstimate;
      rtcpInterval := interval;
    }

    /** Sets G and the framing interval for VP8, VP9, H264 and generic video;
        other codec types only change the (unmodelled) diagnostic label. */
    method SetVideoCodecType(videoType: VideoCodecType, sendFrameRate: PosInt)
      requires Valid()
      modifies this`frameGroupSize, this`mediaFramingInterval
      ensures Valid()
      ensures Model() == CbSpec.SetVideoCodecType(old(Model()), videoType, sendFrameRate)
    {
      match videoType {
        case VideoVp8 =>
          frameGroupSize := 1;
          mediaFramingInterval := GetInterFrameArrival(sendFrameRate);
        case VideoVp9 =>
          frameGroupSize := 1;
          mediaFramingInterval := GetInterFrameArrival(sendFrameRate);
        case VideoH264 =>
          frameGroupSize := 1;
          mediaFramingInterval := GetInterFrameArrival(sendFrameRate);
        case VideoGeneric =>
          frameGroupSize := 1;
          mediaFramingInterval := GetInterFrameArrival(sendFrameRate);
        case VideoNone =>
        case VideoStereo =>
        case VideoUnknown =>
      }
    }

    method UpdateSendingStatus(isSending: bool)
      requires Valid()
      modifies this`sending
      ensures Valid()
      ensures Model() == old(Model()).(sending := isSending)
    {
      sending := isSending;
    }

    /** Sets the one flag of the given trigger kind. */
    method HandleTriggeredCircuitBreaker(flag: CbTriggerType)
      requires Valid()
      modifies this`mediaTimeoutCb, this`rtcpTimeoutCb, this`congestionCb, this`mediaUsabilityCb
      ensures Valid()
      ensures Model() == old(Model()).(triggers := CbSpec.HandleTriggeredCircuitBreaker(old(Model()).triggers, flag))
    {
      match flag {
        case NoTrigger =>
        case RtcpTimeout => rtcpTimeoutCb := true;
        case MediaTimeout => mediaTimeoutCb := true;
        case Congestion => congestionCb := true;
        case MediaUsability => mediaUsabilityCb := true;
      }
    }

    /** The four flags: media timeout, RTCP timeout, congestion, media usability. */
    method GetCbStatus() returns (status: seq<bool>)
      ensures status == CbSpec.GetCbStatus(Model().triggers)
      ensures |status| == 4 && status[0] == mediaTimeoutCb && status[1] == rtcpTimeoutCb
      ensures status[2] == congestionCb && status[3] == mediaUsabilityCb
    {
      status := [mediaTimeoutCb, rtcpTimeoutCb, congestionCb, mediaUsabilityCb];
    }

    /** Resets all four flags. */
    method ClearCb()
      requires Valid()
      modifies this`mediaTimeoutCb, this`rtcpTimeoutCb, this`congestionCb, this`mediaUsabilityCb
      ensures Valid()
      ensures Model() == old(Model()).(triggers := NoTriggers)
    {
      mediaTimeoutCb := false;
      rtcpTimeoutCb := false;
      congestionCb := false;
      mediaUsabilityCb := false;
    }
  }
}
