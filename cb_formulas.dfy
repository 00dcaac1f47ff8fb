/** The arithmetic of the circuit breaker: the CB_INTERVAL and media-timeout
    formulas, RTT computation and smoothing, the loss averages, the send-rate
    truncation and the congestion comparison, and the packet-size average.
    Floating-point expressions of the source are stated over integers here:
    every operand of the two interval formulas is an integer, so ceil of the
    quotient is ceiling division. */
module CbFormulas {
  import opened CbTypes

  /** RTCP intervals are limited so that 3 * interval still fits in 32 bits. */
  const MaxIntervalMs: nat := 0x5555_5555

  /** A frame rate of at least one frame per second gives at most 1000 ms per frame. */
  const MaxFramingIntervalMs: nat := 1000

  /** Initial framing interval, the integer quotient 1000/24 (24 fps video). */
  const InitialFramingIntervalMs: nat := 1000 / 24

  /** Initial RTT guess used for the initial CB interval. */
  const InitialRttMs: nat := 100

  function Max(a: int, b: int): (m: int)
    ensures m >= a && m >= b && (m == a || m == b)
  {
    if a >= b then a else b
  }

  function Min(a: int, b: int): (m: int)
    ensures m <= a && m <= b && (m == a || m == b)
  {
    if a <= b then a else b
  }

  /** ceil(n / d): the least q with q * d >= n. */
  function CeilDiv(n: nat, d: nat): (q: nat)
    requires d > 0
    ensures q * d >= n
    ensures q * d < n + d
  {
    (n + d - 1) / d
  }

  lemma CeilDivAtLeast(n: nat, d: nat, k: nat)
    requires d > 0 && n >= k * d
    ensures CeilDiv(n, d) >= k
  {
    MulCancel(k, CeilDiv(n, d), d);
  }

  lemma CeilDivAtMost(n: nat, d: nat, k: nat)
    requires d > 0 && n <= k * d
    ensures CeilDiv(n, d) <= k
  {
    var q := CeilDiv(n, d);
    assert q * d < (k + 1) * d;
    MulCancel(q, k + 1, d);
  }

  /** Inter-frame arrival in ms for a send frame rate, 1000/fps truncated. */
  function GetInterFrameArrival(fps: PosInt): (f: nat)
    ensures f <= MaxFramingIntervalMs
    ensures f * fps <= 1000 < (f + 1) * fps
  {
    1000 / fps
  }

  /** CB_INTERVAL in reports: 3 * min(max(max(10*G*framing, 10*rtt), 3*estimate),
      max(15, 3*interval)) / (3*estimate), rounded up. */
  function CbIntervalFormula(g: nat, framing: nat, rtt: nat, estimate: nat, interval: nat): (w: nat)
    requires estimate > 0
    ensures 1 <= w <= Max(15, 3 * interval)
    ensures w * estimate >= Min(Max(Max(10 * g * framing, 10 * rtt), 3 * estimate), Max(15, 3 * interval))
    ensures w * estimate < Min(Max(Max(10 * g * framing, 10 * rtt), 3 * estimate), Max(15, 3 * interval)) + estimate
    ensures w <= CeilDiv(Max(15, 3 * interval), estimate)
  {
    var ceiling := Max(15, 3 * interval);
    var bounded := Min(Max(Max(10 * g * framing, 10 * rtt), 3 * estimate), ceiling);
    CbIntervalBounds(bounded, estimate, ceiling);
    CbIntervalCovers(bounded, estimate, ceiling);
    CeilDiv(3 * bounded, 3 * estimate)
  }

  lemma CbIntervalBounds(bounded: nat, estimate: nat, ceiling: nat)
    requires 0 < bounded <= ceiling && estimate > 0
    ensures 1 <= CeilDiv(3 * bounded, 3 * estimate) <= ceiling
  {
    assert ceiling * (3 * estimate) >= ceiling * 3 >= 3 * bounded;
    CeilDivAtMost(3 * bounded, 3 * estimate, ceiling);
  }

  /** The window is the least number of estimated RTCP intervals covering the
      bounded term, and at most the ceiling divided by the estimate, rounded
      up. */
  lemma CbIntervalCovers(bounded: nat, estimate: nat, ceiling: nat)
    requires bounded <= ceiling && estimate > 0
    ensures CeilDiv(3 * bounded, 3 * estimate) * estimate >= bounded
    ensures CeilDiv(3 * bounded, 3 * estimate) * estimate < bounded + estimate
    ensures CeilDiv(3 * bounded, 3 * estimate) <= CeilDiv(ceiling, estimate)
  {
    var w := CeilDiv(3 * bounded, 3 * estimate);
    assert w * (3 * estimate) >= 3 * bounded;
    assert w * (3 * estimate) < 3 * bounded + 3 * estimate;
    assert w * (3 * estimate) == 3 * (w * estimate);
    var c := CeilDiv(ceiling, estimate);
    assert 3 * bounded <= 3 * (c * estimate);
    assert 3 * (c * estimate) == c * (3 * estimate);
    CeilDivAtMost(3 * bounded, 3 * estimate, c);
  }

  /** Media timeout in reports: 5 * max(max(framing, rtt), estimate) / estimate,
      rounded up: enough reports, at the estimated RTCP interval, to span five
      framing intervals, five RTTs and five RTCP intervals. */
  function MediaTimeoutFormula(framing: nat, rtt: nat, estimate: nat): (t: nat)
    requires estimate > 0
    ensures t * estimate >= NonReportingThreshold * Max(Max(framing, rtt), estimate)
    ensures NonReportingThreshold <= t <= Max(NonReportingThreshold, NonReportingThreshold * Max(framing, rtt))
  {
    var longest := Max(Max(framing, rtt), estimate);
    MediaTimeoutBounds(longest, estimate);
    CeilDiv(NonReportingThreshold * longest, estimate)
  }

  lemma MediaTimeoutBounds(longest: nat, estimate: nat)
    requires 0 < estimate <= longest
    ensures NonReportingThreshold <= CeilDiv(NonReportingThreshold * longest, estimate)
    ensures longest == estimate ==> CeilDiv(NonReportingThreshold * longest, estimate) == NonReportingThreshold
    ensures CeilDiv(NonReportingThreshold * longest, estimate) <= NonReportingThreshold * longest
  {
    CeilDivAtLeast(NonReportingThreshold * longest, estimate, NonReportingThreshold);
    if longest == estimate {
      CeilDivAtMost(NonReportingThreshold * longest, estimate, NonReportingThreshold);
    }
    CeilDivAtMost(NonReportingThreshold * longest, estimate, NonReportingThreshold * longest);
  }

  /** RTT in compact NTP units: receive time minus DLSR minus LSR, in uint32. */
  function CompactRtt(receive: uint32, dlsr: uint32, lsr: uint32): (rtt: uint32)
    ensures Wrap32(rtt + dlsr + lsr) == receive
  {
    Wrap32(receive - dlsr - lsr)
  }

  /** The compact RTT is the only 32-bit interval that, added to DLSR and LSR,
      gives back the receive time modulo 2^32. */
  lemma CompactRttUnique(receive: uint32, dlsr: uint32, lsr: uint32, c: uint32)
    requires Wrap32(c + dlsr + lsr) == receive
    ensures c == CompactRtt(receive, dlsr, lsr)
  {
    var rtt := CompactRtt(receive, dlsr, lsr);
    var q := (c + dlsr + lsr) / 0x1_0000_0000;
    var q' := (rtt + dlsr + lsr) / 0x1_0000_0000;
    assert c + dlsr + lsr == q * 0x1_0000_0000 + receive;
    assert rtt + dlsr + lsr == q' * 0x1_0000_0000 + receive;
    assert c - rtt == (q - q') * 0x1_0000_0000;
  }

  /** 0.8 * prev + 0.2 * sample, truncated to an integer. */
  function SmoothRtt(prev: nat, sample: nat): (r: nat)
    ensures Min(prev, sample) <= r <= Max(prev, sample)
  {
    (4 * prev + sample) / 5
  }

  /** The smoothed RTT after n reports that all measure the same RTT. */
  function SmoothRttRepeated(start: nat, sample: nat, n: nat): nat
    decreases n
  {
    if n == 0 then start else SmoothRttRepeated(SmoothRtt(start, sample), sample, n - 1)
  }

  function Dist(a: nat, b: nat): nat
  {
    if a >= b then a - b else b - a
  }

  /** Each smoothing step moves a smoothed RTT above the sample strictly down
      without passing it, and one at least 5 below it strictly up. */
  lemma SmoothRttStep(prev: nat, sample: nat)
    ensures prev > sample ==> sample <= SmoothRtt(prev, sample) < prev
    ensures prev + 5 <= sample ==> prev < SmoothRtt(prev, sample) <= sample
  {
  }

  /** Feeding a constant RTT: after as many reports as the initial distance,
      the smoothed RTT is exact when it started above the sample, and at most
      4 ms below it otherwise (the truncation stalls the last steps). */
  lemma {:induction false} SmoothRttConverges(start: nat, sample: nat, n: nat)
    requires n >= Dist(start, sample)
    ensures sample - 4 <= SmoothRttRepeated(start, sample, n) <= sample
    ensures start >= sample ==> SmoothRttRepeated(start, sample, n) == sample
    decreases n
  {
    if n == 0 {
    } else if start == sample {
      assert SmoothRtt(start, sample) == sample;
      SmoothRttConverges(sample, sample, n - 1);
    } else if start > sample {
      SmoothRttStep(start, sample);
      SmoothRttConverges(SmoothRtt(start, sample), sample, n - 1);
    } else if start + 5 <= sample {
      SmoothRttStep(start, sample);
      SmoothRttConverges(SmoothRtt(start, sample), sample, n - 1);
    } else {
      SmoothRttStaysBelow(start, sample, n);
    }
  }

  /** A smoothed RTT at or below a constant sample never falls and never
      passes the sample. */
  lemma {:induction false} SmoothRttStaysBelow(start: nat, sample: nat, n: nat)
    requires start <= sample
    ensures start <= SmoothRttRepeated(start, sample, n) <= sample
    decreases n
  {
    if n > 0 {
      SmoothRttStaysBelow(SmoothRtt(start, sample), sample, n - 1);
    }
  }

  /** The actual send rate in bit/s as stored by the source: kbit/s times 1000
      in uint32 arithmetic, then truncated to uint16. */
  function SendingRate(kbit: uint32): (r: uint16)
    ensures r == (kbit * 1000) % 0x1_0000
    ensures kbit * 1000 < 0x1_0000 ==> r == kbit * 1000
  {
    Wrap16(Wrap32(kbit * 1000))
  }

  /** The uint16 truncation: 66 kbit/s reads as 464 bit/s. */
  lemma SendingRateTruncates()
    ensures SendingRate(66) == 464
    ensures SendingRate(100) == 34_464
  {
  }

  /** The congestion test: a non-zero TCP rate that the sending rate exceeds
      ten times over (10 * tcp_rate computed in uint64). */
  predicate Congested(sendingRate: uint16, tcpRate: uint64): (c: bool)
    ensures tcpRate == 0 ==> !c
    ensures 10 * tcpRate < 0x1_0000_0000_0000_0000 ==> (c <==> tcpRate != 0 && sendingRate > 10 * tcpRate)
  {
    tcpRate != 0 && sendingRate > Wrap64(10 * tcpRate)
  }

  /** 10 * tcp_rate is a uint64 product: a TCP rate just above 2^64/10 wraps
      it to 4, so a 5 bit/s sending rate counts as congestion. */
  lemma CongestionProductWraps()
    ensures Wrap64(10 * 1_844_674_407_370_955_162) == 4
    ensures Congested(5, 1_844_674_407_370_955_162)
  {
  }

  /** Exactly ten times the TCP rate does not trigger, one more does; a zero
      TCP rate never triggers; and because the sending rate is 16 bits, no TCP
      rate from 6554 up to the point where 10 * tcp_rate wraps in 64 bits can
      ever trigger. */
  lemma CongestionBoundary(tcpRate: uint64, sendingRate: uint16)
    ensures tcpRate == 0 ==> !Congested(sendingRate, tcpRate)
    ensures 0 < tcpRate && 10 * tcpRate < 0x1_0000 ==> !Congested(10 * tcpRate, tcpRate)
    ensures 0 < tcpRate && 10 * tcpRate + 1 < 0x1_0000 ==> Congested(10 * tcpRate + 1, tcpRate)
    ensures Congested(sendingRate, tcpRate) && 10 * tcpRate < 0x1_0000_0000_0000_0000 ==> tcpRate <= 6553
  {
  }

  /** Sum of the 8-bit fraction-lost values of the samples. */
  function SumLost(samples: seq<ReportBlockInfo>): nat
  {
    if samples == [] then 0 else SumLost(samples[..|samples| - 1]) + samples[|samples| - 1].fractionLost
  }

  lemma {:induction false} SumLostBound(samples: seq<ReportBlockInfo>)
    ensures SumLost(samples) <= 255 * |samples|
  {
    if samples != [] {
      SumLostBound(samples[..|samples| - 1]);
    }
  }

  /** Average of fraction_lost / 256 over the samples. */
  function AverageFractionLost(samples: seq<ReportBlockInfo>): (avg: Ratio)
    requires samples != []
    ensures avg.den > 0 && 256 * avg.num <= 255 * avg.den
  {
    SumLostBound(samples);
    Ratio(SumLost(samples), 256 * |samples|)
  }

  /** The loss event rate as the source computes it: the average fraction lost
      divided by 256 once more, so it never exceeds 255/65536. */
  function LossEventRate(samples: seq<ReportBlockInfo>): (p: Ratio)
    requires samples != []
    ensures p.den == 256 * AverageFractionLost(samples).den && p.num == AverageFractionLost(samples).num
    ensures p.den > 0 && 65536 * p.num <= 255 * p.den
  {
    var avg := AverageFractionLost(samples);
    Ratio(avg.num, 256 * avg.den)
  }

  /** Sum of the packet sizes in the window. */
  function Sum(xs: seq<uint32>): nat
  {
    if xs == [] then 0 else Sum(xs[..|xs| - 1]) + xs[|xs| - 1]
  }

  /** Adding one more size to a uint32 running sum keeps it equal to the
      wrapped sum of the prefix. */
  lemma WrappedSumStep(xs: seq<uint32>, i: nat)
    requires i < |xs|
    ensures Wrap32(Wrap32(Sum(xs[..i])) + xs[i]) == Wrap32(Sum(xs[..i + 1]))
  {
    assert xs[..i + 1][..i] == xs[..i];
    WrapAdd32(Sum(xs[..i]), xs[i]);
  }

  lemma {:induction false} SumAtMost(xs: seq<uint32>, m: nat)
    requires forall i :: 0 <= i < |xs| ==> xs[i] <= m
    ensures Sum(xs) <= |xs| * m
  {
    if xs != [] {
      SumAtMost(xs[..|xs| - 1], m);
    }
  }

  lemma {:induction false} SumAtLeast(xs: seq<uint32>, m: nat)
    requires forall i :: 0 <= i < |xs| ==> xs[i] >= m
    ensures Sum(xs) >= |xs| * m
  {
    if xs != [] {
      SumAtLeast(xs[..|xs| - 1], m);
    }
  }

  /** The average packet size as the source computes it: the sum, accumulated
      in uint32, divided by the number of entries. */
  function AveragePacketSize(xs: seq<uint32>): (avg: uint32)
    requires xs != []
    ensures Sum(xs) < 0x1_0000_0000 ==> avg * |xs| <= Sum(xs) < (avg + 1) * |xs|
  {
    Wrap32(Sum(xs)) / |xs|
  }

  /** When the sum does not wrap, the average lies between the smallest and
      the largest packet size in the window. */
  lemma AveragePacketSizeBetween(xs: seq<uint32>, lo: nat, hi: nat)
    requires xs != [] && Sum(xs) < 0x1_0000_0000
    requires forall i :: 0 <= i < |xs| ==> lo <= xs[i] <= hi
    ensures lo <= AveragePacketSize(xs) <= hi
  {
    SumAtMost(xs, hi);
    SumAtLeast(xs, lo);
    var avg: nat := AveragePacketSize(xs);
    MulCancel(avg, hi, |xs|);
    MulCancel(lo, avg + 1, |xs|);
  }

  lemma MulCancel(a: nat, b: nat, n: nat)
    requires n > 0
    ensures a * n <= b * n ==> a <= b
    ensures a * n < b * n ==> a < b
  {
    if a > b {
      assert a * n == b * n + (a - b) * n;
    }
  }

  /** Four packets of less than 1 GiB each never wrap the uint32 sum. */
  lemma PacketSumFits(xs: seq<uint32>)
    requires |xs| <= 4
    requires forall i :: 0 <= i < |xs| ==> xs[i] < 0x4000_0000
    ensures Sum(xs) < 0x1_0000_0000
  {
    SumAtMost(xs, 0x3FFF_FFFF);
  }
}
