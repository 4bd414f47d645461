// Runs of the sender, continued: rounds and recovery, the stay in PROBE_RTT, the minimum RTT, and the end of
// the start-up phase.
module SenderRounds {
  import opened Rates
  import opened SamplerStates
  import opened SenderRuns
  import opened SenderStates

  // ---- Rounds and recovery ----

  predicate IsAck(step: Step) { step.Congestion? && step.f.lastAcked.Some? }

  predicate RoundStarts(c: Core, step: Step) { step.Congestion? && IsRoundStart(c, step.f) }

  // An acknowledgement that also reports losses, at full bandwidth.
  predicate LossyAck(c: Core, step: Step) { IsAck(step) && step.f.hasLosses && c.growth.full }

  // The rest of the event leaves rounds and recovery as the acknowledgement set them.
  lemma EventKeepsRounds(c: Core, f: Facts, maxAckHeight: int)
    requires CanPace(Modelled(c, f), f)
    ensures var b, r := Begun(c, f), AfterFacts(c, f, maxAckHeight);
            && r.rounds.end == b.rounds.end && r.rounds.count == b.rounds.count
            && r.recovery.state == b.recovery.state && r.recovery.endAt == b.recovery.endAt && r.lastSent == c.lastSent
  {
    MeasuringKeeps(c, f);
    var m := Modelled(c, f);
    assert m.rounds == Measured(c, f).rounds && m.recovery == Measured(c, f).recovery && m.lastSent == Measured(c, f).lastSent by {
      hide Measured, Target, GainCycled, FullBandwidthChecked, StartupOrDrainLeft, ProbeServed, CycleStart, MinRttExpires;
    }
    hide Begun, Measured, Modelled, PacingUpdated, WindowUpdated, RecoveryWindowUpdated, CanPace;
  }

  predicate MarksFit(c: Core) {
    INVALID_PACKET <= c.rounds.end <= c.lastSent && INVALID_PACKET <= c.recovery.endAt <= c.lastSent
  }

  // What one step does to the marks of rounds and recovery.
  lemma StepMarks(c: Core, step: Step)
    requires MarksFit(c) && Enabled(c, step)
    ensures var r := Next(c, step);
            && MarksFit(r)
            && c.lastSent <= r.lastSent && c.rounds.end <= r.rounds.end && c.recovery.endAt <= r.recovery.endAt
            && (RoundStarts(c, step) ==> r.rounds.end == c.lastSent && r.rounds.count == c.rounds.count + 1)
            && (!RoundStarts(c, step) ==> r.rounds.count == c.rounds.count)
            && (LossyAck(c, step) ==> r.recovery.endAt == c.lastSent)
            && (!InRecovery(c) && InRecovery(r) ==>
                  LossyAck(c, step) && r.recovery.state == Conservation && r.rounds.end == c.lastSent)
            && (InRecovery(c) && !InRecovery(r) ==>
                  IsAck(step) && !step.f.hasLosses && step.f.lastAcked.value > c.recovery.endAt)
            && (c.recovery.state == Conservation && r.recovery.state != Conservation ==>
                  IsAck(step) && (RoundStarts(c, step) || step.f.lastAcked.value > c.recovery.endAt))
  {
    if step.Congestion? {
      EventKeepsRounds(c, step.f, step.maxAckHeight);
      hide AfterFacts, Modelled, CanPace;
    } else {
      hide SizesRescaled, CanPace;
    }
  }

  lemma {:induction false} MarksAlwaysFit(states: seq<Core>, steps: seq<Step>, maxPackets: int, i: nat)
    requires IsRun(states, steps) && IsStart(states[0], maxPackets) && i < |states|
    ensures MarksFit(states[i])
  {
    hide Next, Enabled;
    if i != 0 {
      MarksAlwaysFit(states, steps, maxPackets, i - 1);
      StepMarks(states[i - 1], steps[i - 1]);
    }
  }

  lemma {:induction false} MarksGrow(states: seq<Core>, steps: seq<Step>, maxPackets: int, i: nat, k: nat)
    requires IsRun(states, steps) && IsStart(states[0], maxPackets) && i <= k < |states|
    ensures states[i].lastSent <= states[k].lastSent && states[i].rounds.end <= states[k].rounds.end
    ensures states[i].recovery.endAt <= states[k].recovery.endAt && states[i].rounds.count <= states[k].rounds.count
    decreases k
  {
    hide Next, Enabled, IsStart;
    if i < k {
      MarksGrow(states, steps, maxPackets, i, k - 1);
      MarksAlwaysFit(states, steps, maxPackets, k - 1);
      StepMarks(states[k - 1], steps[k - 1]);
    }
  }

  // Recovery is entered only at full bandwidth, by an acknowledgement that reports losses, and always in
  // CONSERVATION.
  lemma RecoveryNeedsFullBandwidth(states: seq<Core>, steps: seq<Step>, maxPackets: int, i: nat)
    requires IsRun(states, steps) && IsStart(states[0], maxPackets) && i < |steps|
    requires !InRecovery(states[i]) && InRecovery(states[i + 1])
    ensures LossyAck(states[i], steps[i]) && states[i + 1].recovery.state == Conservation
  {
    hide Next, Enabled, IsStart;
    MarksAlwaysFit(states, steps, maxPackets, i);
    StepMarks(states[i], steps[i]);
  }

  // Recovery entered at step i stays in CONSERVATION until a packet sent after that step is acknowledged.
  lemma ConservationLastsARound(states: seq<Core>, steps: seq<Step>, maxPackets: int, i: nat, k: nat)
    requires IsRun(states, steps) && IsStart(states[0], maxPackets) && i < k < |steps|
    requires !InRecovery(states[i]) && InRecovery(states[i + 1])
    requires states[k].recovery.state == Conservation && states[k + 1].recovery.state != Conservation
    ensures IsAck(steps[k]) && steps[k].f.lastAcked.value > states[i].lastSent
  {
    MarksAlwaysFit(states, steps, maxPackets, i);
    MarksAlwaysFit(states, steps, maxPackets, k);
    StepMarks(states[i], steps[i]);
    MarksGrow(states, steps, maxPackets, i + 1, k);
    StepMarks(states[k], steps[k]);
    assert 0 <= states[i].lastSent by { assert Enabled(states[i], steps[i]); }
    hide Next, IsStart, CanPace, Modelled;
  }

  // Recovery ends only at a loss-free acknowledgement of a packet sent after every earlier acknowledgement that
  // reported losses at full bandwidth.
  lemma RecoveryEndsBeyondAllLosses(states: seq<Core>, steps: seq<Step>, maxPackets: int, j: nat, k: nat)
    requires IsRun(states, steps) && IsStart(states[0], maxPackets) && j < k < |steps|
    requires InRecovery(states[k]) && !InRecovery(states[k + 1]) && LossyAck(states[j], steps[j])
    ensures IsAck(steps[k]) && !steps[k].f.hasLosses && steps[k].f.lastAcked.value > states[j].lastSent
  {
    hide Next, Enabled, IsStart;
    MarksAlwaysFit(states, steps, maxPackets, j);
    MarksAlwaysFit(states, steps, maxPackets, k);
    StepMarks(states[j], steps[j]);
    MarksGrow(states, steps, maxPackets, j + 1, k);
    StepMarks(states[k], steps[k]);
  }

  // The acknowledgement that starts a round is of a packet sent after every earlier round start.
  lemma RoundsSpanAFlight(states: seq<Core>, steps: seq<Step>, maxPackets: int, i: nat, k: nat)
    requires IsRun(states, steps) && IsStart(states[0], maxPackets) && i < k < |steps|
    requires RoundStarts(states[i], steps[i]) && RoundStarts(states[k], steps[k])
    ensures steps[k].f.lastAcked.value > states[i].lastSent
  {
    MarksAlwaysFit(states, steps, maxPackets, i);
    StepMarks(states[i], steps[i]);
    MarksGrow(states, steps, maxPackets, i + 1, k);
    assert 0 <= states[i].lastSent by { assert Enabled(states[i], steps[i]); }
    hide Next, IsStart, CanPace, Modelled;
  }

  // ---- PROBE_RTT ----

  predicate Drained(c: Core, step: Step) { step.Congestion? && step.f.inFlight < c.sizes.least + c.packetBuffer }

  // What one step does to the PROBE_RTT timer.
  lemma StepProbes(c: Core, step: Step)
    requires ModeFits(c) && Enabled(c, step)
    ensures var r := Next(c, step);
            && (c.gains.mode != ProbeRtt && r.gains.mode == ProbeRtt ==>
                  (r.probe.exitAt == 0
                   || (Drained(c, step) && r.probe.exitAt == step.f.time + PROBE_RTT_TIME && !r.probe.roundPassed)))
            && (c.gains.mode == ProbeRtt && r.gains.mode == ProbeRtt && c.probe.exitAt == 0 ==>
                  (r.probe.exitAt == 0
                   || (Drained(c, step) && r.probe.exitAt == step.f.time + PROBE_RTT_TIME && !r.probe.roundPassed)))
            && (c.gains.mode == ProbeRtt && r.gains.mode == ProbeRtt && c.probe.exitAt != 0 ==>
                  r.probe.exitAt == c.probe.exitAt && (r.probe.roundPassed ==> c.probe.roundPassed || RoundStarts(c, step)))
            && (c.gains.mode == ProbeRtt && r.gains.mode != ProbeRtt ==>
                  step.Congestion? && c.probe.exitAt != 0 && step.f.time >= c.probe.exitAt
                  && (c.probe.roundPassed || RoundStarts(c, step)))
  {
    if step.Congestion? {
      EventProbes(c, step.f, step.maxAckHeight);
      hide AfterFacts, Modelled, CanPace;
    } else {
      hide SizesRescaled, CanPace;
    }
  }

  lemma MovingKeepsProbe(c: Core, f: Facts)
    ensures var m := Moved(c, f);
            && m.sizes == c.sizes && m.packetBuffer == c.packetBuffer && m.inFlight == f.inFlight
            && (c.gains.mode == ProbeRtt ==> m.gains.mode == ProbeRtt && m.probe == c.probe)
            && (c.gains.mode != ProbeRtt && m.gains.mode == ProbeRtt ==> m.probe.exitAt == 0)
  {
    MeasuringKeeps(c, f);
    hide Measured, Target, LosesTooMuch, Grows, MinRttExpires, CycleStart, AdvancesCycle, HoldsLowGain, FullBandwidthChecked;
  }

  lemma EventProbes(c: Core, f: Facts, maxAckHeight: int)
    requires CanPace(Modelled(c, f), f)
    ensures var m, r, isRoundStart := Moved(c, f), AfterFacts(c, f, maxAckHeight), IsRoundStart(c, f);
            && r.probe.exitAt == ProbeServed(m, f, isRoundStart).exitAt
            && r.probe.roundPassed == ProbeServed(m, f, isRoundStart).roundPassed
            && (r.gains.mode == ProbeRtt <==> m.gains.mode == ProbeRtt && !LeavesProbeRtt(m, f, isRoundStart))
            && m.sizes == c.sizes && m.packetBuffer == c.packetBuffer && m.inFlight == f.inFlight
            && (c.gains.mode == ProbeRtt ==> m.gains.mode == ProbeRtt && m.probe == c.probe)
            && (c.gains.mode != ProbeRtt && m.gains.mode == ProbeRtt ==> m.probe.exitAt == 0)
  {
    MovingKeepsProbe(c, f);
    hide Moved, PacingUpdated, WindowUpdated, RecoveryWindowUpdated, RoundClosed, CanPace, IsRoundStart, CycleStart;
  }

  // States j + 1 to k all lie in one visit to PROBE_RTT, step j saw little enough in flight, and the timer runs
  // from its time.
  ghost predicate Timed(states: seq<Core>, steps: seq<Step>, j: int, k: int) {
    && 0 <= j < k < |states| == |steps| + 1
    && (forall n | j < n <= k :: states[n].gains.mode == ProbeRtt)
    && Drained(states[j], steps[j]) && states[k].probe.exitAt == steps[j].f.time + PROBE_RTT_TIME
  }

  lemma {:induction false} TimerRunsFromDrain(states: seq<Core>, steps: seq<Step>, maxPackets: int, k: nat)
    returns (j: int, m: int)
    requires IsRun(states, steps) && IsStart(states[0], maxPackets)
    requires k < |states| && states[k].gains.mode == ProbeRtt && states[k].probe.exitAt != 0
    ensures Timed(states, steps, j, k)
    ensures states[k].probe.roundPassed ==> j < m < k && RoundStarts(states[m], steps[m])
  {
    hide Next, Enabled, IsStart;
    if k == 0 {
      assert false by { ModesAlwaysFit(states, steps, maxPackets, 0); StartsInStartup(states[0], maxPackets); }
    }
    var c, step := states[k - 1], steps[k - 1];
    ModesAlwaysFit(states, steps, maxPackets, k - 1);
    StepProbes(c, step);
    if c.gains.mode == ProbeRtt && c.probe.exitAt != 0 {
      j, m := TimerRunsFromDrain(states, steps, maxPackets, k - 1);
      if !c.probe.roundPassed {
        m := k - 1;
      }
    } else {
      j, m := k - 1, k - 1;
    }
  }

  lemma StartsInStartup(c: Core, maxPackets: int)
    requires IsStart(c, maxPackets)
    ensures c.gains.mode == Startup
  {
  }

  // A visit to PROBE_RTT ends only at an event at least 200 ms after an earlier event of the same visit that saw
  // little enough in flight, and at or after a round start that followed it.
  lemma ProbeRttDwells(states: seq<Core>, steps: seq<Step>, maxPackets: int, k: nat) returns (j: int, m: int)
    requires IsRun(states, steps) && IsStart(states[0], maxPackets) && k < |steps|
    requires states[k].gains.mode == ProbeRtt && states[k + 1].gains.mode != ProbeRtt
    ensures Timed(states, steps, j, k) && steps[k].Congestion?
    ensures steps[k].f.time >= steps[j].f.time + PROBE_RTT_TIME
    ensures j < m <= k && RoundStarts(states[m], steps[m])
  {
    hide Next, Enabled, IsStart;
    ModesAlwaysFit(states, steps, maxPackets, k);
    StepProbes(states[k], steps[k]);
    j, m := TimerRunsFromDrain(states, steps, maxPackets, k);
    if !states[k].probe.roundPassed {
      m := k;
    }
  }

  // ---- The minimum RTT ----

  predicate HasRtt(step: Step) { step.Congestion? && step.f.rtt != INF_RTT }

  // The RTT samples since the estimate last expired, the sample that came with the expiry included.
  function SamplesSinceExpiry(states: seq<Core>, steps: seq<Step>, k: nat): seq<int>
    requires k <= |steps| && |steps| < |states|
  {
    if k == 0 then []
    else
      var step := steps[k - 1];
      var before := SamplesSinceExpiry(states, steps, k - 1);
      if !HasRtt(step) then before
      else if MinRttExpires(states[k - 1].rtt, step.f) then [step.f.rtt]
      else before + [step.f.rtt]
  }

  predicate IsMinimum(samples: seq<int>, m: int) { m in samples && forall x | x in samples :: m <= x }

  lemma StepRtt(c: Core, step: Step)
    requires Enabled(c, step)
    ensures Next(c, step).rtt.min == if step.Congestion? then MinRttUpdated(c.rtt, step.f).min else c.rtt.min
  {
    if step.Congestion? {
      MeasuringKeeps(c, step.f);
      var m := Moved(c, step.f);
      assert m.rtt == Measured(c, step.f).rtt by {
        hide Measured, Target, GainCycled, FullBandwidthChecked, StartupOrDrainLeft, MinRttExpires;
      }
      hide Measured, Moved, PacingUpdated, WindowUpdated, RecoveryWindowUpdated, RoundClosed, CanPace, ProbeServed;
    } else {
      hide SizesRescaled, CanPace;
    }
  }

  // Between expiries the estimate is exactly the minimum of the samples.
  lemma {:induction false} MinRttIsMinimumSinceExpiry(states: seq<Core>, steps: seq<Step>, maxPackets: int, k: nat)
    requires IsRun(states, steps) && IsStart(states[0], maxPackets) && k < |states|
    ensures var samples := SamplesSinceExpiry(states, steps, k);
            if samples == [] then states[k].rtt.min == 0
            else IsMinimum(samples, states[k].rtt.min) && 0 < states[k].rtt.min
  {
    hide Next;
    if k != 0 {
      hide IsStart;
      MinRttIsMinimumSinceExpiry(states, steps, maxPackets, k - 1);
      var c, step := states[k - 1], steps[k - 1];
      assert Enabled(c, step);
      assert step.Congestion? ==> 0 < step.f.rtt;
      StepRtt(c, step);
      hide Enabled;
    }
  }

  // ---- The end of start-up ----

  // The event compares the bandwidth with the previous round's.
  predicate Compares(c: Core, step: Step) {
    step.Congestion? && ChecksGrowth(Measured(c, step.f).growth, IsRoundStart(c, step.f))
  }

  function Comparisons(states: seq<Core>, steps: seq<Step>, k: nat): nat
    requires k <= |steps| && |steps| < |states|
  {
    if k == 0 then 0 else Comparisons(states, steps, k - 1) + if Compares(states[k - 1], steps[k - 1]) then 1 else 0
  }

  function Power(base: nat, n: nat): nat { if n == 0 then 1 else base * Power(base, n - 1) }

  // After g growing rounds, not yet full: the last bandwidth is at least 8 times 1.25 to the power g - 1, and no
  // more than numStartupRtts comparisons were made per growing round.
  predicate GrowthFits(c: Core, comparisons: nat, g: nat) {
    var rounds := c.config.numStartupRtts;
    && 0 <= c.growth.roundsWithoutGain && 0 <= c.growth.bandwidthAtLastRound
    && c.growth.bandwidthAtLastRound % 8 == 0
    && if g == 0 then comparisons == 0 && c.growth.bandwidthAtLastRound == 0 && c.growth.roundsWithoutGain == 0
       else
         && c.growth.roundsWithoutGain < rounds
         && comparisons <= (g - 1) * rounds + 1 + c.growth.roundsWithoutGain
         && 8 * Power(5, g - 1) <= c.growth.bandwidthAtLastRound * Power(4, g - 1)
  }

  // A comparison that finds growth restarts the count; one that does not ends start-up when it completes the
  // profile's number of rounds, or when too much was lost in this one.
  lemma StepGrowth(c: Core, step: Step)
    requires Enabled(c, step)
    ensures Next(c, step).config == c.config
    ensures var g, r := c.growth, Next(c, step).growth;
            if !Compares(c, step) then
              r.full == g.full && r.bandwidthAtLastRound == g.bandwidthAtLastRound && r.roundsWithoutGain == g.roundsWithoutGain
            else if Grows(g, step.f.bandwidth) then
              r.full == g.full && r.bandwidthAtLastRound == step.f.bandwidth && r.roundsWithoutGain == 0
            else
              && r.bandwidthAtLastRound == g.bandwidthAtLastRound && r.roundsWithoutGain == g.roundsWithoutGain + 1
              && r.full == (r.roundsWithoutGain >= c.config.numStartupRtts || LosesTooMuch(Measured(c, step.f).rounds, step.f))
  {
    if step.Congestion? {
      var f := step.f;
      MeasuringKeeps(c, f);
      var m := Modelled(c, f);
      assert m.growth == Sampled(c, f).growth && m.config == Measured(c, f).config by {
        hide Measured, Target, GainCycled, FullBandwidthChecked, StartupOrDrainLeft, MinRttExpires, ProbeServed, CycleStart;
      }
      assert Cycled(c, f).growth == Measured(c, f).growth && Cycled(c, f).config == Measured(c, f).config
             && Cycled(c, f).rounds == Measured(c, f).rounds by { hide Measured, GainCycled; }
      hide Measured, Cycled, Modelled, PacingUpdated, WindowUpdated, RecoveryWindowUpdated, RoundClosed, CanPace, LosesTooMuch,
           IsRoundStart;
    } else {
      hide SizesRescaled, CanPace;
    }
  }

  // One growing round multiplies the bandwidth by at least 1.25, exactly, because rates are multiples of 8.
  lemma GrowthMultiplies(last: int, bandwidth: int, g: nat)
    requires last % 8 == 0 && bandwidth >= Scale(STARTUP_GROWTH_TARGET, last)
    requires 0 < g && 8 * Power(5, g - 1) <= last * Power(4, g - 1)
    ensures 8 * Power(5, g) <= bandwidth * Power(4, g)
  {
    var eighth := last / 8;
    assert STARTUP_GROWTH_TARGET * (last as real) == (10 * eighth) as real;
    assert 5 * last <= 4 * bandwidth;
    var p := Power(4, g - 1);
    Monotone(5 * last, 4 * bandwidth, p);
    assert 5 * last * p == 5 * (last * p) && 4 * bandwidth * p == bandwidth * (4 * p);
  }

  lemma Monotone(x: int, y: int, p: nat)
    requires x <= y
    ensures x * p <= y * p
  {
  }

  // The bandwidths compared are real estimates: multiples of 8 between 8 and a bound.
  ghost predicate EstimatesBounded(states: seq<Core>, steps: seq<Step>, k: nat, bound: int)
    requires k <= |steps| && |steps| < |states|
  {
    forall i | 0 <= i < k && Compares(states[i], steps[i]) ::
      8 <= steps[i].f.bandwidth <= bound && steps[i].f.bandwidth % 8 == 0
  }

  lemma {:induction false} GrowthAlwaysFits(states: seq<Core>, steps: seq<Step>, maxPackets: int, k: nat, bound: int)
    returns (g: nat)
    requires IsRun(states, steps) && IsStart(states[0], maxPackets)
    requires k < |states| && !states[k].growth.full && EstimatesBounded(states, steps, k, bound)
    ensures GrowthFits(states[k], Comparisons(states, steps, k), g)
    ensures 0 < g ==> states[k].growth.bandwidthAtLastRound <= bound
  {
    if k == 0 {
      g := 0;
    } else {
      StartsWithRounds(states[0], maxPackets);
      hide Next, Enabled, IsStart;
      var c, step := states[k - 1], steps[k - 1];
      if c.growth.full {
        StartupIsNeverReentered(states, steps, maxPackets, k - 1, k);
      }
      g := GrowthAlwaysFits(states, steps, maxPackets, k - 1, bound);
      StepGrowth(c, step);
      ModesAlwaysFit(states, steps, maxPackets, k - 1);
      g := NextGrowth(states, steps, k, g, bound);
    }
  }

  lemma StartsWithRounds(c: Core, maxPackets: int)
    requires IsStart(c, maxPackets)
    ensures 2 <= c.config.numStartupRtts <= 4
  {
  }

  lemma NextGrowth(states: seq<Core>, steps: seq<Step>, k: nat, g: nat, bound: int) returns (g': nat)
    requires 0 < k <= |steps| && |states| == |steps| + 1
    requires Enabled(states[k - 1], steps[k - 1]) && states[k] == Next(states[k - 1], steps[k - 1])
    requires !states[k].growth.full && EstimatesBounded(states, steps, k, bound)
    requires GrowthFits(states[k - 1], Comparisons(states, steps, k - 1), g)
    requires 0 < g ==> states[k - 1].growth.bandwidthAtLastRound <= bound
    requires 0 < states[k - 1].config.numStartupRtts
    ensures GrowthFits(states[k], Comparisons(states, steps, k), g')
    ensures 0 < g' ==> states[k].growth.bandwidthAtLastRound <= bound
  {
    var c, step := states[k - 1], steps[k - 1];
    StepGrowth(c, step);
    hide Next, Enabled, Compares;
    g' := g;
    if Compares(c, step) && Grows(c.growth, step.f.bandwidth) {
      g' := g + 1;
      if g == 0 {
        assert Power(5, 0) == 1 && Power(4, 0) == 1;
      } else {
        GrowthMultiplies(c.growth.bandwidthAtLastRound, step.f.bandwidth, g);
        assert g * c.config.numStartupRtts == (g - 1) * c.config.numStartupRtts + c.config.numStartupRtts;
      }
    }
  }

  // If no estimate exceeds the bound, start-up ends: once n growing rounds no longer fit below the bound, the
  // (n * numStartupRtts + 1)-th comparison at the latest finds full bandwidth.
  lemma StartupEnds(states: seq<Core>, steps: seq<Step>, maxPackets: int, k: nat, bound: nat, n: nat)
    requires IsRun(states, steps) && IsStart(states[0], maxPackets)
    requires k < |states| && EstimatesBounded(states, steps, k, bound)
    requires bound * Power(4, n) < 8 * Power(5, n)
    requires Comparisons(states, steps, k) > n * states[0].config.numStartupRtts
    ensures states[k].growth.full
  {
    if !states[k].growth.full {
      var g := GrowthAlwaysFits(states, steps, maxPackets, k, bound);
      ModesAlwaysFit(states, steps, maxPackets, k);
      GrowthIsBounded(states[k], Comparisons(states, steps, k), g, bound, n);
    }
  }

  lemma GrowthIsBounded(c: Core, comparisons: nat, g: nat, bound: nat, n: nat)
    requires GrowthFits(c, comparisons, g) && (0 < g ==> c.growth.bandwidthAtLastRound <= bound)
    requires bound * Power(4, n) < 8 * Power(5, n)
    ensures comparisons <= n * c.config.numStartupRtts
  {
    var rounds := c.config.numStartupRtts;
    if n < g {
      PowersOutgrow(bound, n, g - 1);
      Monotone(c.growth.bandwidthAtLastRound, bound, Power(4, g - 1));
      assert false;
    }
    Monotone(g, n, rounds);
    assert g * rounds == (g - 1) * rounds + rounds;
  }

  lemma {:induction false} PowersOutgrow(bound: nat, n: nat, m: nat)
    requires n <= m && bound * Power(4, n) < 8 * Power(5, n)
    ensures bound * Power(4, m) < 8 * Power(5, m)
    decreases m
  {
    if n < m {
      PowersOutgrow(bound, n, m - 1);
      var p, q := Power(4, m - 1), Power(5, m - 1);
      assert Power(4, m) == 4 * p && Power(5, m) == 5 * q;
      hide Power;
      assert bound * (4 * p) == 4 * (bound * p);
      assert 0 <= bound * p < 8 * q;
    }
  }
}
