// How fast the sender goes: what the pacing rate, the congestion window and the recovery window are after an event.
module SenderRates {
  import opened Rates
  import opened SamplerStates
  import opened SenderMarks
  import opened SenderRounds
  import opened SenderRuns
  import opened SenderStates

  // n is the product of gain and x, rounded down.
  ghost predicate ScaledDown(n: int, gain: real, x: int) { n as real <= gain * (x as real) < n as real + 1.0 }

  lemma ScaleScalesDown(gain: real, x: int)
    ensures ScaledDown(Scale(gain, x), gain, x)
    ensures ScaledDown(0, gain, x) <==> Scale(gain, x) == 0
  {
  }

  // ---- Targets ----

  // The bandwidth-delay product in whole bytes.
  lemma BdpRoundsDown(rtt: nat, bandwidth: nat)
    ensures var bytes := Bdp(rtt, bandwidth);
            0 <= bytes && bytes * 8_000_000_000 <= rtt * bandwidth < (bytes + 1) * 8_000_000_000
    ensures Bdp(rtt, bandwidth) == BytesFromBandwidthAndTimeDelta(bandwidth, rtt)
  {
    var x := rtt * bandwidth;
    assert x == bandwidth * rtt && 0 <= x;
    NestedDivision(x);
  }

  lemma NestedDivision(x: nat)
    ensures x / 8 / SECOND == x / (SECOND * 8)
  {
  }

  // The target is the gain times that product, rounded down, or times the initial window while that is zero, but never
  // below the minimum window.
  lemma TargetIsScaledBdp(c: Core, bandwidth: int, rttMin: int, gain: real) returns (scaled: int)
    ensures Target(c, bandwidth, rttMin, gain) == if scaled < c.sizes.least then c.sizes.least else scaled
    ensures var bdp := Bdp(MinRtt(c, rttMin), bandwidth);
            ScaledDown(scaled, gain, if ScaledDown(0, gain, bdp) then c.sizes.initial else bdp)
  {
    hide Bdp, MinRtt, Scale, ScaledDown;
    var bdp := Bdp(MinRtt(c, rttMin), bandwidth);
    ScaleScalesDown(gain, bdp);
    ScaleScalesDown(gain, c.sizes.initial);
    scaled := if Scale(gain, bdp) == 0 then Scale(gain, c.sizes.initial) else Scale(gain, bdp);
  }

  // Every profile drains in one round what it built up in one, and its gain cycle is neutral on the whole.
  lemma ProfilesAreBalanced(profile: Profile)
    ensures ConfigFor(profile).drainGain * ConfigFor(profile).highGain == 1.0
    ensures 1.0 < ConfigFor(profile).highCwndGain <= ConfigFor(profile).highGain
    ensures CycleGain(0) + CycleGain(1) + CycleGain(2) + CycleGain(3) + CycleGain(4) + CycleGain(5) + CycleGain(6) + CycleGain(7) == 8.0
  {
  }

  // Each phase but the draining one is drawn by exactly one of the seven remainders.
  lemma EveryPhaseIsDrawn(random: nat, offset: int)
    requires 0 <= offset < 8 && offset != 1
    ensures CycleStart(random) == offset <==> random % 7 == if offset == 0 then 0 else offset - 1
  {
  }

  // ---- The pacing rate ----

  // What an event does to the pacing rate.
  lemma StepRate(c: Core, f: Facts, h: int) returns (target: int)
    requires CanPace(Modelled(c, f), f)
    ensures var r := AfterFacts(c, f, h);
            var lost := c.pacing.bytesLost + f.bytesLost;
            && ScaledDown(target, r.gains.pacing, f.bandwidth)
            && if f.bandwidth == 0 then r.pacing == c.pacing
               else if r.growth.full then r.pacing == c.pacing.(rate := target)
               else if c.pacing.rate == 0 && f.rttMin != 0 then
                 r.pacing == c.pacing.(rate := BandwidthFromDelta(c.sizes.initial, f.rttMin))
               else if c.pacing.detectOvershooting && c.pacing.rate > target && 0 < lost
                       && (r.growth.hasNoAppLimited || lost * c.config.bytesLostMultiplier > c.sizes.initial) then
                 && 0 < f.rttMin && !r.pacing.detectOvershooting && r.pacing.bytesLost == 0
                 && r.pacing.rate >= target && r.pacing.rate >= BandwidthFromDelta(c.sizes.pacingFloor, f.rttMin)
                 && (r.pacing.rate == target || r.pacing.rate == BandwidthFromDelta(c.sizes.pacingFloor, f.rttMin))
               else
                 && r.pacing.detectOvershooting == c.pacing.detectOvershooting
                 && r.pacing.bytesLost == (if c.pacing.detectOvershooting then lost else c.pacing.bytesLost)
                 && r.pacing.rate >= target && r.pacing.rate >= c.pacing.rate
                 && (r.pacing.rate == target || r.pacing.rate == c.pacing.rate)
  {
    hide Modelled, WindowUpdated, RecoveryWindowUpdated, RoundClosed, Scale, BandwidthFromDelta, ScaledDown;
    var m, r := Modelled(c, f), AfterFacts(c, f, h);
    ModelKeepsWindows(c, f);
    ScaleScalesDown(m.gains.pacing, f.bandwidth);
    target := Scale(m.gains.pacing, f.bandwidth);
    assert r.gains == m.gains && r.growth == m.growth && r.pacing == PacingUpdated(m, f);
    assert m.pacing == c.pacing && m.sizes == c.sizes && m.config == c.config;
    hide AfterFacts;
  }

  // At full bandwidth the pacing rate is exactly the gain times the estimate, rounded down, and the gain is that of the
  // mode: the drain gain in DRAIN, the phase's in PROBE_BW, 1 in PROBE_RTT.
  lemma RateFollowsEstimateAtFullBandwidth(states: seq<Core>, steps: seq<Step>, maxPackets: int, i: nat)
    requires IsRun(states, steps) && IsStart(states[0], maxPackets) && i < |steps| && steps[i].Congestion?
    requires |states| == |steps| + 1 && states[i + 1].growth.full && steps[i].f.bandwidth != 0
    ensures ScaledDown(states[i + 1].pacing.rate, states[i + 1].gains.pacing, steps[i].f.bandwidth)
    ensures ModeFits(states[i + 1]) && states[i + 1].config == states[0].config
  {
    ModesAlwaysFit(states, steps, maxPackets, i + 1);
    hide ModeFits, IsStart, CanPace, Modelled, AfterFacts, ScaledDown;
    assert Enabled(states[i], steps[i]) && states[i + 1] == Next(states[i], steps[i]);
    hide IsRun;
    var _ := StepRate(states[i], steps[i].f, steps[i].maxAckHeight);
  }

  // In start-up the rate is at least the target after every event but the one that first sets it.
  lemma RateReachesTargetInStartup(states: seq<Core>, steps: seq<Step>, maxPackets: int, i: nat) returns (target: int)
    requires IsRun(states, steps) && IsStart(states[0], maxPackets) && i < |steps| && steps[i].Congestion?
    requires |states| == |steps| + 1 && !states[i + 1].growth.full && steps[i].f.bandwidth != 0
    ensures ScaledDown(target, states[i + 1].gains.pacing, steps[i].f.bandwidth)
    ensures if states[i].pacing.rate == 0 && steps[i].f.rttMin != 0
            then states[i + 1].pacing.rate == BandwidthFromDelta(states[i].sizes.initial, steps[i].f.rttMin)
            else states[i + 1].pacing.rate >= target
    ensures states[i + 1].pacing.detectOvershooting == states[i].pacing.detectOvershooting
            && !(states[i].pacing.rate == 0 && steps[i].f.rttMin != 0) ==>
              states[i + 1].pacing.rate == if states[i].pacing.rate < target then target else states[i].pacing.rate
  {
    hide IsStart, CanPace, Modelled, AfterFacts, ScaledDown, BandwidthFromDelta;
    assert Enabled(states[i], steps[i]) && states[i + 1] == Next(states[i], steps[i]);
    hide IsRun;
    target := StepRate(states[i], steps[i].f, steps[i].maxAckHeight);
  }

  // The pacer gets the pacing rate in whole bytes per second, and 65536 at least; before any rate is set, the high gain
  // times the initial window per round trip.
  lemma PacerBandwidthIs(c: Core, rttMin: nat) returns (rate: int)
    requires 0 <= c.rtt.min && 0 <= c.pacing.rate && 0.0 <= c.config.highGain
    ensures if c.pacing.rate != 0 then rate == c.pacing.rate
            else ScaledDown(rate, c.config.highGain, BandwidthFromDelta(c.sizes.initial, MinRtt(c, rttMin)))
    ensures var bps := PacerBandwidth(c, rttMin);
            && (65536 * 8 <= rate ==> bps * 8 <= rate < (bps + 1) * 8)
            && (rate < 65536 * 8 ==> bps == 65536)
  {
    rate := EffectivePacingRate(c, rttMin);
    if c.pacing.rate == 0 { ScaleScalesDown(c.config.highGain, BandwidthFromDelta(c.sizes.initial, MinRtt(c, rttMin))); }
    hide Scale, BandwidthFromDelta;
  }

  // ---- The congestion window ----

  // The window grows in start-up while it is below its target, or while less than an initial window was ever acknowledged.
  predicate StillGrows(c: Core, r: Core, f: Facts) {
    || c.window < Target(r, f.bandwidth, f.rttMin, r.gains.window) + (if c.config.ackAggregationInStartup then f.extraAcked else 0)
    || f.totalAcked < c.sizes.initial
  }

  // What an event does to the window in start-up and in PROBE_RTT.
  lemma StepWindow(c: Core, f: Facts, h: int, maxPackets: int)
    requires CanPace(Modelled(c, f), f) && WindowsFit(c, maxPackets) && INITIAL_WINDOW_PACKETS <= maxPackets && 0 <= f.bytesAcked
    ensures var r := AfterFacts(c, f, h);
            && r.sizes == c.sizes
            && (r.gains.mode == ProbeRtt ==> r.window == c.window)
            && (r.gains.mode != ProbeRtt && !r.growth.full ==>
                  r.window == if !StillGrows(c, r, f) then c.window
                              else if c.window + f.bytesAcked <= c.sizes.most then c.window + f.bytesAcked else c.sizes.most)
  {
    ModelKeepsWindows(c, f);
    SizesAreOrdered(c.sizes, maxPackets);
    var m, r := Modelled(c, f), AfterFacts(c, f, h);
    assert r.rtt == m.rtt && r.sizes == m.sizes && r.gains == m.gains && r.growth == m.growth;
    TargetReads(m, r, f.bandwidth, f.rttMin, m.gains.window);
    hide Modelled, PacingUpdated, RecoveryWindowUpdated, Target, CanPace, RoundClosed, SizesFit;
  }

  // The bytes that events from step i up to, not including, step k acknowledged.
  function BytesAcked(steps: seq<Step>, i: nat, k: nat): int
    requires k <= |steps|
  {
    if k <= i then 0 else BytesAcked(steps, i, k - 1) + if steps[k - 1].Congestion? then steps[k - 1].f.bytesAcked else 0
  }

  // Step n resizes nothing, and an event there finds the window below its target.
  predicate KeepsGrowing(states: seq<Core>, steps: seq<Step>, n: nat)
    requires n < |steps| < |states|
  {
    && !steps[n].Resize?
    && (steps[n].Congestion? ==> states[n + 1].gains.mode != ProbeRtt && StillGrows(states[n], states[n + 1], steps[n].f))
  }

  // Slow start: as long as the window is below its target it grows by every byte acknowledged, up to its maximum.
  lemma {:induction false} SlowStartGrowsByEveryByte(states: seq<Core>, steps: seq<Step>, maxPackets: int, i: nat, k: nat)
    requires IsRun(states, steps) && IsStart(states[0], maxPackets) && i <= k <= |steps| && |states| == |steps| + 1
    requires !states[k].growth.full && forall n | i <= n < k :: KeepsGrowing(states, steps, n)
    ensures states[k].sizes == states[i].sizes
    ensures var window := states[i].window + BytesAcked(steps, i, k);
            states[k].window == if window <= states[i].sizes.most then window else states[i].sizes.most
    decreases k
  {
    hide IsRun, IsStart, KeepsGrowing;
    WindowsStayBounded(states, steps, maxPackets, i);
    LargestWindowFits(states[i], maxPackets);
    hide WindowsFit;
    if i < k {
      if states[k - 1].growth.full { StartupIsNeverReentered(states, steps, maxPackets, k - 1, k); }
      SlowStartGrowsByEveryByte(states, steps, maxPackets, i, k - 1);
      assert KeepsGrowing(states, steps, k - 1);
      GrowthAt(states, steps, maxPackets, k - 1);
    }
  }

  lemma GrowthAt(states: seq<Core>, steps: seq<Step>, maxPackets: int, n: nat)
    requires IsRun(states, steps) && IsStart(states[0], maxPackets) && n < |steps| && |states| == |steps| + 1
    requires KeepsGrowing(states, steps, n) && !states[n + 1].growth.full
    ensures states[n + 1].sizes == states[n].sizes
    ensures var acked := if steps[n].Congestion? then steps[n].f.bytesAcked else 0;
            && 0 <= acked && states[n].window <= states[n].sizes.most
            && states[n + 1].window == if states[n].window + acked <= states[n].sizes.most then states[n].window + acked
                                       else states[n].sizes.most
  {
    assert INITIAL_WINDOW_PACKETS <= maxPackets;
    hide Next, Enabled, IsStart, StillGrows, WindowsFit;
    WindowsStayBounded(states, steps, maxPackets, n);
    assert Enabled(states[n], steps[n]) && states[n + 1] == Next(states[n], steps[n]);
    hide IsRun;
    LargestWindowFits(states[n], maxPackets);
    GrowthStep(states[n], steps[n], maxPackets);
  }

  lemma LargestWindowFits(c: Core, maxPackets: int)
    requires WindowsFit(c, maxPackets)
    ensures c.window <= c.sizes.most
  {
  }

  lemma GrowthStep(c: Core, step: Step, maxPackets: int)
    requires Enabled(c, step) && WindowsFit(c, maxPackets) && INITIAL_WINDOW_PACKETS <= maxPackets && !step.Resize?
    requires step.Congestion? ==> Next(c, step).gains.mode != ProbeRtt && !Next(c, step).growth.full && StillGrows(c, Next(c, step), step.f)
    ensures Next(c, step).sizes == c.sizes
    ensures var acked := if step.Congestion? then step.f.bytesAcked else 0;
            && 0 <= acked
            && Next(c, step).window == if step.Congestion? && c.sizes.most < c.window + acked then c.sizes.most else c.window + acked
  {
    if step.Congestion? { StepWindow(c, step.f, step.maxAckHeight, maxPackets); }
    hide AfterFacts, Modelled, CanPace, StillGrows, WindowsFit;
  }

  // ---- The recovery window ----

  // After an event in recovery the recovery window is the largest of the minimum window, what is in flight plus what was
  // acknowledged, half the target, and, unless recovery has just begun, what was left after the losses plus, once past
  // CONSERVATION, what was acknowledged.
  lemma RecoveryWindowIsLargest(c: Core, f: Facts, h: int) returns (left: int)
    requires CanPace(Modelled(c, f), f) && InRecovery(AfterFacts(c, f, h))
    ensures var r := AfterFacts(c, f, h);
            var window := r.recovery.window;
            var entered := !InRecovery(c) || c.recovery.window == 0;
            && (entered ==> left == 0)
            && (!entered ==> left == (if f.bytesLost <= c.recovery.window then c.recovery.window - f.bytesLost else c.sizes.datagram)
                                     + if r.recovery.state == SlowGrowth then f.bytesAcked else 0)
            && c.sizes.least <= window && f.inFlight + f.bytesAcked <= window && Target(r, f.bandwidth, f.rttMin, 1.0) / 2 <= window
            && (!entered ==> left <= window)
            && (|| window == c.sizes.least || window == f.inFlight + f.bytesAcked || window == Target(r, f.bandwidth, f.rttMin, 1.0) / 2
                || (!entered && window == left))
  {
    EventKeepsRounds(c, f, h);
    ModelKeepsWindows(c, f);
    BegunKeepsRecovery(c, f);
    var m, r := Modelled(c, f), AfterFacts(c, f, h);
    MeasuringKeeps(c, f);
    assert m.recovery == Measured(c, f).recovery && m.inFlight == Measured(c, f).inFlight by {
      hide Measured, Target, GainCycled, FullBandwidthChecked, StartupOrDrainLeft, ProbeServed, CycleStart, MinRttExpires;
    }
    assert r.rtt == m.rtt && r.sizes == m.sizes;
    TargetReads(m, r, f.bandwidth, f.rttMin, 1.0);
    left := if !InRecovery(c) || c.recovery.window == 0 then 0
            else (if f.bytesLost <= c.recovery.window then c.recovery.window - f.bytesLost else c.sizes.datagram)
                 + if r.recovery.state == SlowGrowth then f.bytesAcked else 0;
    hide Modelled, Measured, Begun, PacingUpdated, WindowUpdated, Target, CanPace, RoundClosed;
  }

  lemma BegunKeepsRecovery(c: Core, f: Facts)
    ensures var b := Begun(c, f);
            if !InRecovery(c) && InRecovery(b) then b.recovery.window == 0 else b.recovery.window == c.recovery.window
  {
    hide StartsRound;
  }

  // ---- The window offered to the connection ----

  // Four datagrams in PROBE_RTT; in recovery the lower of the two windows; else the window.
  lemma WindowOffered(c: Core, maxPackets: int)
    requires WindowsFit(c, maxPackets)
    ensures var offered := CongestionWindow(c);
            && 4 * c.sizes.datagram <= offered <= c.window
            && (c.gains.mode == ProbeRtt ==> offered == 4 * c.sizes.datagram)
            && (c.gains.mode != ProbeRtt && !InRecovery(c) ==> offered == c.window)
            && (c.gains.mode != ProbeRtt && InRecovery(c) ==>
                  offered <= c.recovery.window && (offered == c.window || offered == c.recovery.window))
  {
  }

  // A larger datagram size keeps each size, and a window that is at one of the sizes, at its number of datagrams; any other
  // window keeps its bytes, but is at least four of the new datagrams.
  lemma ResizeKeepsPackets(c: Core, size: int, maxPackets: int)
    requires WindowsFit(c, maxPackets) && INITIAL_WINDOW_PACKETS <= maxPackets && c.sizes.datagram <= size
    ensures var r := Resized(c, size);
            && r.sizes == Sizes(size, 32 * size, maxPackets * size, 4 * size, 32 * size)
            && r.window == (if c.window == 4 * c.sizes.datagram then 4 * size
                            else if c.window == 32 * c.sizes.datagram then 32 * size
                            else if c.window < 4 * size then 4 * size else c.window)
            && r.recovery.window == (if c.recovery.window < 4 * size then 4 * size
                                     else if maxPackets * size < c.recovery.window then maxPackets * size else c.recovery.window)
  {
    ResizedSizesAre(c.sizes, size, maxPackets);
    PacketsOrder(maxPackets, c.sizes.datagram, size);
    hide SizesRescaled;
    ResizedWindowsAre(c, size, maxPackets * c.sizes.datagram, maxPackets * size);
  }

  lemma ResizedSizesAre(s: Sizes, size: int, maxPackets: int)
    requires SizesFit(s, maxPackets) && s.datagram <= size
    ensures SizesRescaled(s, size) == Sizes(size, 32 * size, maxPackets * size, 4 * size, 32 * size)
  {
    RescaleIsExact(INITIAL_WINDOW_PACKETS, s.datagram, size);
    RescaleIsExact(maxPackets, s.datagram, size);
    hide Rescale;
  }

  lemma PacketsOrder(packets: int, low: int, high: int)
    requires 32 <= packets && 0 < low <= high
    ensures packets * low <= packets * high && 32 * low <= packets * low && 32 * high <= packets * high
  {
  }

  lemma ResizedWindowsAre(c: Core, size: int, most: int, newMost: int)
    requires 0 < c.sizes.datagram <= size && c.sizes.least == 4 * c.sizes.datagram && c.sizes.initial == 32 * c.sizes.datagram
    requires c.sizes.least <= c.window <= most <= newMost && c.sizes.least <= c.recovery.window && 32 * size <= newMost
    requires SizesRescaled(c.sizes, size) == Sizes(size, 32 * size, newMost, 4 * size, 32 * size)
    ensures var r := Resized(c, size);
            && r.sizes == Sizes(size, 32 * size, newMost, 4 * size, 32 * size)
            && r.window == (if c.window == 4 * c.sizes.datagram then 4 * size
                            else if c.window == 32 * c.sizes.datagram then 32 * size
                            else if c.window < 4 * size then 4 * size else c.window)
            && r.recovery.window == (if c.recovery.window < 4 * size then 4 * size
                                     else if newMost < c.recovery.window then newMost else c.recovery.window)
  {
    hide SizesRescaled;
  }
}
