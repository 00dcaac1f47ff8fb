# RTP media transport circuit breaker

A Dafny model of the `CircuitBreaker` class of the WebRTC-CB congestion
controller, the sender-side failure detector of RFC 8083 ("Multimedia
Congestion Control: Circuit Breakers for Unicast RTP Sessions"). From the
reception report blocks of incoming RTCP reports the breaker

- takes the round-trip time from the LSR and DLSR fields (section 6.4.1 of
  RFC 3550) and keeps a smoothed RTT per SSRC;
- counts reports whose extended highest sequence number did not advance and
  raises the media-timeout trigger when the count reaches the SSRC's media
  timeout (section 4.2 of RFC 8083);
- buffers the fraction-lost values of an SSRC's report blocks and, once more
  blocks than the SSRC's CB interval have arrived, compares the actual sending
  rate with ten times a TCP-friendly rate and raises the congestion trigger
  (section 4.3 of RFC 8083).

The send path pushes the size of each sent packet into a window of the last
4*G sizes whose average is the packet size used by the TCP rate; setters
record the RTCP interval, the codec (which fixes G and the media framing
interval) and whether the sender is sending. Four sticky flags hold the
triggers; they are read as a status array and cleared together.

The project has five modules:

- `CbTypes` (`cb_types.dfy`): fixed-width integers and their wrap-around, the
  trigger kinds with their enum values, the per-SSRC records and the report
  block fields the breaker reads.
- `CbFormulas` (`cb_formulas.dfy`): the CB interval and media-timeout
  formulas as integer ceiling divisions, RTT computation and smoothing, the
  loss averages, the 16-bit sending rate, the congestion comparison and the
  packet-size average, with their bounds.
- `CbSpec` (`cb_spec.dfy`): the whole breaker state as a datatype with its
  invariant, and one function per operation giving the state after it.
- `CbProperties` (`cb_properties.dfy`): lemmas stating what processing a
  report block, pushing packet sizes and raising triggers guarantee.
- `CbBreaker` (`circuit_breaker.dfy`): the class `CircuitBreaker`, whose
  fields are those of the source class and whose methods update them in
  place. Each method is proved to keep the invariant and to leave exactly
  the state the matching `CbSpec` function describes; `UpdateSendingStatus`
  and `ClearCb` state the new state directly, as the old state with the
  sending flag or all four flags replaced.

The collaborators the breaker calls are inputs: the compact NTP receive time,
the send frame rate and the actual send bitrate arrive per report block as a
`Readings` value; the compact-NTP-to-milliseconds conversion is a function
parameter whose results are at most 65,536,000 ms (a 32-bit compact NTP
interval is shorter than 65,536 s); the floating-point TCP rate formula is a
function parameter from packet size, smoothed RTT and loss event rate to a
`uint64` rate; the default video RTCP interval is a constructor parameter.

Behaviour of the code that the model keeps as written:

- the media-timeout struct prepared for a first-seen SSRC is never stored, so
  the second report of that SSRC compares its sequence number with zero
  (`CbProperties.SecondReportComparesWithZero`);
- the stall counter is compared with the timeout stored before the timeout is
  raised to the recalculated one (`CbProperties.StallBranch`);
- the sending rate is kbit/s times 1000 stored in 16 bits, so 66 kbit/s reads
  as 464 bit/s (`CbFormulas.SendingRateTruncates`), and no TCP rate from 6554
  up to 2^64/10 can ever be exceeded tenfold (`CbFormulas.CongestionBoundary`);
- `10 * tcp_rate` is computed in 64 bits and wraps, so a TCP rate just above
  2^64/10 makes a 5 bit/s sending rate count as congestion
  (`CbFormulas.CongestionProductWraps`);
- the stored sequence number is overwritten in the stall branch too, so a
  report with a lower number than the stored one writes the lower number
  back (`CbProperties.StalledSequenceWrittenBack`);
- the loss event rate divides the average fraction lost by 256 a second time
  (`CbFormulas.LossEventRate`);
- the packet window drops its oldest entry only when its length equals 4*G
  (`CbSpec.PushWindow`);
- the packet sizes are summed in 32-bit arithmetic, which wraps
  (`CbFormulas.AveragePacketSize`).

## Model

| member | source | states |
|---|---|---|
| CbTypes.TriggerCode | webrtc/modules/congestion_controller/circuit_breaker.h:19-25 | each trigger kind has its enum value in 0..4, and 0 exactly for kNone |
| CbTypes.TriggerFromCode | webrtc/modules/congestion_controller/circuit_breaker.h:19-25 | every value 0..4 names the trigger kind with that enum value |
| CbProperties.TriggerCodesRoundTrip | webrtc/modules/congestion_controller/circuit_breaker.h:19-25 | the five kinds and their enum values are in one-to-one correspondence |
| CbTypes.WrapAdd32 | webrtc/modules/congestion_controller/circuit_breaker.cc:157-160 | adding to a uint32 accumulator wraps the same as adding first and wrapping once |
| CbFormulas.WrappedSumStep | webrtc/modules/congestion_controller/circuit_breaker.cc:157-160 | one more iteration of the summing loop keeps the accumulator equal to the wrapped sum of the sizes seen so far |
| CbFormulas.GetInterFrameArrival | webrtc/modules/congestion_controller/circuit_breaker.cc:165-170 | the framing interval is the largest whole number of ms with interval * fps <= 1000, so at most 1000 ms |
| CbFormulas.CbIntervalFormula | webrtc/modules/congestion_controller/circuit_breaker.cc:137-143 | the CB interval is at least one report; times the estimated RTCP interval it covers min(max(10 * G * framing, 10 * RTT, 3 * estimate), max(15, 3 * RTCP interval)); it is at most max(15, 3 * RTCP interval) and at most that ceiling divided by the estimate, rounded up; times the estimate it stays below the covered term plus one estimate, so it is the least such number of intervals |
| CbFormulas.CeilDiv | webrtc/modules/congestion_controller/circuit_breaker.cc:139-141 | ceil of a quotient is the least q with q * d >= n |
| CbFormulas.CbIntervalCovers | webrtc/modules/congestion_controller/circuit_breaker.cc:139-141 | the ceiling quotient is the least number of estimated RTCP intervals covering the bounded term, and at most the ceiling divided by the estimate, rounded up |
| CbFormulas.MediaTimeoutFormula | webrtc/modules/congestion_controller/circuit_breaker.cc:145-148 | the timeout in reports times the estimated RTCP interval covers five times the longest of framing interval, RTT and RTCP interval; it is at least NON_REPORTING_THRESHOLD (5) and at most 5 * max(framing, RTT) when that is larger |
| CbFormulas.MediaTimeoutBounds | webrtc/modules/congestion_controller/circuit_breaker.cc:145-148 | the ceiling quotient is at least 5, exactly 5 when the estimated RTCP interval is the longest term, and at most 5 times that term |
| CbFormulas.CompactRtt | webrtc/modules/congestion_controller/circuit_breaker.cc:52-55 | the RTT in compact NTP units plus DLSR plus LSR gives back the receive time modulo 2^32 |
| CbFormulas.CompactRttUnique | webrtc/modules/congestion_controller/circuit_breaker.cc:55 | the compact RTT is the only 32-bit interval that, added to DLSR and LSR, gives back the receive time modulo 2^32 |
| CbSpec.BlockRtt | webrtc/modules/congestion_controller/circuit_breaker.cc:52-56 | a block's RTT in ms is the conversion of a 32-bit compact interval that, added to DLSR and LSR, gives back the receive time modulo 2^32 (the only one, by CompactRttUnique) |
| CbFormulas.SmoothRtt | webrtc/modules/congestion_controller/circuit_breaker.cc:96-97 | the blended RTT lies between the previous smoothed RTT and the new sample |
| CbFormulas.SmoothRttStep | webrtc/modules/congestion_controller/circuit_breaker.cc:96-97 | a blend moves a smoothed RTT above the sample strictly toward it without passing it, and one at least 5 below it strictly up |
| CbFormulas.SmoothRttConverges | webrtc/modules/congestion_controller/circuit_breaker.cc:96-97 | with a constant sample, after as many reports as the initial distance the smoothed RTT is within 4 ms below the sample, and equal to it when it started above |
| CbFormulas.SmoothRttStaysBelow | webrtc/modules/congestion_controller/circuit_breaker.cc:96-97 | a smoothed RTT at or below a constant sample never falls and never passes it |
| CbFormulas.SendingRate | webrtc/modules/congestion_controller/circuit_breaker.cc:126 | the sending rate is kbit/s times 1000 modulo 2^16, the uint16 truncation; exactly kbit/s times 1000 whenever that fits in 16 bits |
| CbFormulas.SendingRateTruncates | webrtc/modules/congestion_controller/circuit_breaker.cc:126 | 66 kbit/s is stored as 464 and 100 kbit/s as 34464: the rate is truncated to 16 bits |
| CbFormulas.CongestionBoundary | webrtc/modules/congestion_controller/circuit_breaker.cc:128-130 | a zero TCP rate never triggers; exactly ten times the TCP rate does not trigger and one more does; while 10 * tcp_rate does not wrap in 64 bits (tcp_rate below 2^64/10), no TCP rate above 6553 can trigger |
| CbFormulas.Congested | webrtc/modules/congestion_controller/circuit_breaker.cc:128-130 | a zero TCP rate is never congestion; while 10 * tcp_rate does not wrap in 64 bits, congestion holds iff the TCP rate is non-zero and the sending rate exceeds ten times it |
| CbFormulas.CongestionProductWraps | webrtc/modules/congestion_controller/circuit_breaker.cc:128 | the uint64 product 10 * tcp_rate wraps: tcp_rate 1844674407370955162 gives 4, and a sending rate of 5 then counts as congestion |
| CbFormulas.SumLostBound | webrtc/modules/congestion_controller/circuit_breaker.cc:111-116 | the sum of n 8-bit fraction-lost values is at most 255 * n |
| CbFormulas.AverageFractionLost | webrtc/modules/congestion_controller/circuit_breaker.cc:111-119 | the average of fraction_lost/256 over the buffered samples lies in [0, 255/256] |
| CbFormulas.LossEventRate | webrtc/modules/congestion_controller/circuit_breaker.cc:120 | the loss event rate is the average fraction lost divided by 256 again, so at most 255/65536 |
| CbFormulas.SumAtMost | webrtc/modules/congestion_controller/circuit_breaker.cc:157-160 | n sizes each at most m sum to at most n * m |
| CbFormulas.SumAtLeast | webrtc/modules/congestion_controller/circuit_breaker.cc:157-160 | n sizes each at least m sum to at least n * m |
| CbFormulas.AveragePacketSize | webrtc/modules/congestion_controller/circuit_breaker.cc:156-161 | when the 32-bit sum does not wrap, the packet size is the floor of the window's sum divided by its length |
| CbFormulas.AveragePacketSizeBetween | webrtc/modules/congestion_controller/circuit_breaker.cc:156-161 | when the sum does not wrap, the packet size lies between the smallest and the largest size in the window |
| CbFormulas.PacketSumFits | webrtc/modules/congestion_controller/circuit_breaker.cc:157-160 | four packets below 1 GiB each never wrap the 32-bit sum |
| CbSpec.Initial | webrtc/modules/congestion_controller/circuit_breaker.cc:15-40 | a new breaker has all four flags false, is sending, has empty maps and window, G = 1, both RTCP intervals half the default video interval, and satisfies the invariant |
| CbSpec.HandleTriggeredCircuitBreaker | webrtc/modules/congestion_controller/circuit_breaker.cc:225-242 | raising a trigger never clears a flag, and kNone changes nothing |
| CbSpec.GetCbStatus | webrtc/modules/congestion_controller/circuit_breaker.cc:244-251 | the status array has four entries |
| CbSpec.StatusIndex | webrtc/modules/congestion_controller/circuit_breaker.cc:244-251 | the status array puts media timeout first, RTCP timeout second, then congestion and media usability, unlike the enum order |
| CbSpec.MediaTimeoutEntry | webrtc/modules/congestion_controller/circuit_breaker.cc:75 | an SSRC without stall bookkeeping reads as all zeros, as operator[] inserts it |
| CbSpec.CalculateMediaTimeout | webrtc/modules/congestion_controller/circuit_breaker.cc:145-148 | the media timeout of a known SSRC is at least 5 and covers five times the longest of framing interval, smoothed RTT and estimated RTCP interval |
| CbSpec.InsertNewSsrc | webrtc/modules/congestion_controller/circuit_breaker.cc:57-70 | a first-seen SSRC gains an entry, no trigger changes and the invariant holds |
| CbSpec.UpdateKnownSsrc | webrtc/modules/congestion_controller/circuit_breaker.cc:71-97 | stall detection and RTT blending keep the set of SSRCs, the configuration and the invariant, and only raise flags |
| CbSpec.AddReportBlockInfo | webrtc/modules/congestion_controller/circuit_breaker.cc:98-132 | buffering and evaluating loss samples keeps the set of SSRCs, the configuration and the invariant, and only raises flags |
| CbSpec.RecalculateCbInterval | webrtc/modules/congestion_controller/circuit_breaker.cc:137-143 | the framing interval is refreshed from the frame rate and the SSRC's CB interval lands between 1 and max(15, 3 * RTCP interval) |
| CbSpec.OnReportBlock | webrtc/modules/congestion_controller/circuit_breaker.cc:49-133 | a block with LSR 0 changes nothing; any other adds its SSRC to the known set; neither changes the configuration or clears a flag, and the invariant holds |
| CbSpec.OnReportBlocks | webrtc/modules/congestion_controller/circuit_breaker.cc:47-135 | processing a report keeps the invariant and the configuration and only raises the media-timeout and congestion flags |
| CbSpec.PushWindow | webrtc/modules/congestion_controller/circuit_breaker.cc:152-156 | a window within capacity becomes the last min(length + 1, capacity) entries of the window followed by the new size; a window over capacity is never trimmed |
| CbSpec.PushPacketSize | webrtc/modules/congestion_controller/circuit_breaker.cc:151-163 | only the window and the packet size change; the new window is the old one pushed through CbSpec.PushWindow with capacity 4*G, so it drops the oldest entry only at exactly 4*G; the new size, truncated to 32 bits, is last; the packet size is the window's average; the window stays within 4*G |
| CbSpec.SetRtcpInterval | webrtc/modules/congestion_controller/circuit_breaker.cc:173-177 | both intervals take the given values and the initial CB interval is not recomputed |
| CbSpec.SetVideoCodecType | webrtc/modules/congestion_controller/circuit_breaker.cc:179-219 | VP8, VP9, H264 and generic video set G to 1 and only refresh the framing interval from the frame rate; every other codec type leaves the modelled state unchanged |
| CbProperties.FirstReportCreatesEntry | webrtc/modules/congestion_controller/circuit_breaker.cc:57-70 | a first-seen SSRC gets the block's RTT as smoothed RTT, the block's one loss sample and a CB interval recomputed from the fresh framing interval; no stall bookkeeping is stored and no flag changes |
| CbProperties.StallBranch | webrtc/modules/congestion_controller/circuit_breaker.cc:75-85 | a non-advancing sequence number increments the counter in 32 bits, raises the media-timeout flag iff the new count equals the timeout stored before, keeps the larger of stored and recalculated timeout, and stores the sequence number |
| CbProperties.StallCounterCountsOne | webrtc/modules/congestion_controller/circuit_breaker.cc:75-85 | below 2^32 - 1 the counter grows by exactly one, and the timeout never falls during a stall |
| CbProperties.StalledSequenceWrittenBack | webrtc/modules/congestion_controller/circuit_breaker.cc:75-95 | a stalled report with a lower sequence number than the stored one leaves the lower number stored |
| CbProperties.ProgressBranch | webrtc/modules/congestion_controller/circuit_breaker.cc:89-95 | an advancing sequence number resets the counter, sets the timeout to the recalculated one when sending and 0 otherwise, stores the sequence number and leaves the media-timeout flag alone |
| CbProperties.SecondReportComparesWithZero | webrtc/modules/congestion_controller/circuit_breaker.cc:57-75 | since the first report's sequence number is never stored, the second report of an SSRC with any non-zero sequence number counts as progress |
| CbProperties.RttBlended | webrtc/modules/congestion_controller/circuit_breaker.cc:96-97 | for a known SSRC the smoothed RTT becomes 0.8 old + 0.2 new, truncated, and lies between the two |
| CbProperties.SampleBufferEvaluated | webrtc/modules/congestion_controller/circuit_breaker.cc:101-131 | one sample is appended; the buffer is evaluated and emptied iff it then exceeds the CB interval, the congestion flag being raised iff the evaluation finds congestion; otherwise the flag is untouched; the buffer never exceeds the CB interval in force at the check |
| CbProperties.CbIntervalRecomputed | webrtc/modules/congestion_controller/circuit_breaker.cc:132-143 | after the samples are handled, the CB interval is recomputed from the fresh framing interval and the new smoothed RTT, and lies between 1 and max(15, 3 * RTCP interval) |
| CbProperties.OtherSsrcsUnchanged | webrtc/modules/congestion_controller/circuit_breaker.cc:49-133 | a report block touches the entries of its own SSRC only, in both maps |
| CbProperties.RaiseSetsExactlyOneFlag | webrtc/modules/congestion_controller/circuit_breaker.cc:225-251 | raising a trigger sets its own slot of the status array and leaves the other three as they were |
| CbProperties.PushAllKeepsMostRecent | webrtc/modules/congestion_controller/circuit_breaker.cc:151-156 | from an empty window, after n pushes the window holds the most recent min(n, 4*G) sizes, oldest first |
| CbProperties.PushWindowSlides | webrtc/modules/congestion_controller/circuit_breaker.cc:152-156 | one push turns the most recent entries of a prefix into the most recent entries of the prefix extended by the pushed size |
| CbBreaker.CircuitBreaker.constructor | webrtc/modules/congestion_controller/circuit_breaker.cc:15-40 | the new object's state is CbSpec.Initial and satisfies the invariant |
| CbBreaker.CircuitBreaker.OnReceivedRtcpReportBlocks | webrtc/modules/congestion_controller/circuit_breaker.cc:47-135 | the loop over report blocks leaves the state CbSpec.OnReportBlocks gives and keeps the invariant |
| CbBreaker.CircuitBreaker.ProcessReportBlock | webrtc/modules/congestion_controller/circuit_breaker.cc:50-133 | one loop iteration leaves the state CbSpec.OnReportBlock gives and keeps the invariant |
| CbBreaker.CircuitBreaker.UpdateMediaTimeout | webrtc/modules/congestion_controller/circuit_breaker.cc:71-97 | the in-place stall update and RTT blend leave the state CbSpec.UpdateKnownSsrc gives |
| CbBreaker.CircuitBreaker.AddReportBlockInfo | webrtc/modules/congestion_controller/circuit_breaker.cc:98-131 | appending the sample and the summing loop over the buffer leave the state CbSpec.AddReportBlockInfo gives and keep the invariant |
| CbBreaker.CircuitBreaker.RecalculateCbInterval | webrtc/modules/congestion_controller/circuit_breaker.cc:137-143 | changes only the framing interval and the SSRC's entry, as CbSpec.RecalculateCbInterval gives, keeping the invariant |
| CbBreaker.CircuitBreaker.CalculateMediaTimeout | webrtc/modules/congestion_controller/circuit_breaker.cc:145-148 | returns CbSpec.CalculateMediaTimeout of the current state, at least 5, and changes nothing |
| CbBreaker.CircuitBreaker.PushPacketSize | webrtc/modules/congestion_controller/circuit_breaker.cc:151-163 | changes only the window and the packet size, as CbSpec.PushPacketSize gives, keeping the invariant |
| CbBreaker.CircuitBreaker.AverageOf | webrtc/modules/congestion_controller/circuit_breaker.cc:156-161 | the uint32 summing loop divided by the window length equals the average packet size |
| CbBreaker.CircuitBreaker.SetRtcpInterval | webrtc/modules/congestion_controller/circuit_breaker.cc:173-177 | changes only the two interval fields, as CbSpec.SetRtcpInterval gives |
| CbBreaker.CircuitBreaker.SetVideoCodecType | webrtc/modules/congestion_controller/circuit_breaker.cc:179-219 | changes only G and the framing interval, as CbSpec.SetVideoCodecType gives |
| CbBreaker.CircuitBreaker.UpdateSendingStatus | webrtc/modules/congestion_controller/circuit_breaker.cc:221-223 | changes only the sending flag, to the given value, keeping the invariant |
| CbBreaker.CircuitBreaker.HandleTriggeredCircuitBreaker | webrtc/modules/congestion_controller/circuit_breaker.cc:225-242 | changes only the flags, as CbSpec.HandleTriggeredCircuitBreaker gives, keeping the invariant |
| CbBreaker.CircuitBreaker.GetCbStatus | webrtc/modules/congestion_controller/circuit_breaker.cc:244-251 | returns the four flags in the order media timeout, RTCP timeout, congestion, media usability |
| CbBreaker.CircuitBreaker.ClearCb | webrtc/modules/congestion_controller/circuit_breaker.cc:253-258 | sets all four flags to false and changes nothing else, keeping the invariant |

## Left out

- Floating point: the TCP rate formula with `sqrt` and the float loss
  average is the function parameter `tcpRateOf`, which receives the loss
  event rate as an exact rational; only the comparison with the sending rate
  is modelled.
- The framing interval is `1000 / fps` in whole milliseconds rather than the
  `double` quotient, and the smoothed RTT blend is the exact rational
  `(4 * old + new) / 5` truncated, without double rounding.
- `fmin`, `fmax` and `ceil` over doubles are integer maximum, minimum and
  ceiling division; with integer operands they agree up to double rounding.
- Clock, `CompactNtp`, `CompactNtpRttToMs`, `ActualSendBitrateKbit` and
  `GetSendFrameRate` are inputs (`Readings` and the parameter `rttToMs`);
  their code is not part of this model. `RTCP_INTERVAL_VIDEO_MS` is the
  constructor's parameter.
- CbSpec.SetRtcpInterval: requires a positive estimated RTCP interval of at
  most 0x5555_5555 ms and an RTCP interval of at most 0x5555_5555 ms; a zero
  estimate would divide by zero and a larger one would overflow `3 * interval`
  in 32 bits.
- CbBreaker.CircuitBreaker.SetRtcpInterval: the same precondition.
- CbSpec.Initial: requires a default video RTCP interval of at least 2 ms
  whose half is at most 0x5555_5555 ms, for the same reason.
- Frame rates are positive (`PosInt`): a zero frame rate would divide by zero.
- CbSpec.CalculateMediaTimeout: requires that the SSRC already has an entry;
  the code calls it only for such SSRCs, while `operator[]` would otherwise
  insert an empty entry.
- CbBreaker.CircuitBreaker.CalculateMediaTimeout: the same precondition.
- CbSpec.RecalculateCbInterval: requires that the SSRC already has an entry,
  which holds at its only call site.
- CbBreaker.CircuitBreaker.RecalculateCbInterval: the same precondition.
- CbBreaker.CircuitBreaker.UpdateMediaTimeout: its own contract states the
  new state only; that the invariant holds follows from
  CbSpec.UpdateKnownSsrc.
- The loop body of `OnReceivedRtcpReportBlocks` is split into the methods
  ProcessReportBlock, UpdateMediaTimeout and AddReportBlockInfo, and the
  summing loop of `PushPacketSize` into AverageOf; the source has them inline.
- `packet_size_` is not initialised by the constructor; the model starts it
  at 0.
- The RTCP-timeout and media-usability triggers are never raised by the
  modelled code; they can be raised only through HandleTriggeredCircuitBreaker.
- `RTC_LOG` output and the `codec_` diagnostic label are not modelled.
- The destructor, the raw pointers to the two maps and their ownership are
  not modelled; the maps are plain fields.
- Access from the send path and the report path on different threads is not
  modelled; all operations are sequential.
- The test bed (Mininet topology, browser clients, signalling server) is not
  part of this model.
