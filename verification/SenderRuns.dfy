// Runs of the sender and what every one of them keeps: window bounds, mode and gain discipline, and the ratchets
// of the start-up phase. A run is a sequence of states with the step taken between each two; the sampler's
// reports are arbitrary, so the results hold whatever the sampler does.
module SenderRuns {
  import opened Options
  import opened Rates
  import opened SamplerStates
  import opened SenderStates

  datatype Step = Congestion(f: Facts, maxAckHeight: int) | Send(packetNumber: int, bytesInFlight: int) | Resize(size: int)

  // What the connection guarantees: times and byte counts are not negative, packets are acknowledged after they
  // were sent, packet numbers grow, and the datagram size does not shrink.
  predicate Enabled(c: Core, step: Step) {
    match step
    case Congestion(f, _) =>
      && CanPace(Modelled(c, f), f) && 0 <= f.time && 0 <= f.bytesAcked && 0 < f.rtt
      && (f.lastAcked.Some? ==> 0 <= f.lastAcked.value <= c.lastSent)
    case Send(packetNumber, _) => 0 <= packetNumber && c.lastSent < packetNumber
    case Resize(size) => 0 < c.sizes.datagram <= size
  }

  function Next(c: Core, step: Step): Core
    requires Enabled(c, step)
  {
    match step
    case Congestion(f, maxAckHeight) => AfterFacts(c, f, maxAckHeight)
    case Send(packetNumber, bytesInFlight) => AfterSend(c, packetNumber, bytesInFlight)
    case Resize(size) => Resized(c, size)
  }

  ghost predicate IsRun(states: seq<Core>, steps: seq<Step>) {
    && |states| == |steps| + 1
    && forall i | 0 <= i < |steps| :: Enabled(states[i], steps[i]) && states[i + 1] == Next(states[i], steps[i])
  }

  ghost predicate IsStart(c: Core, maxPackets: int) {
    0 < c.sizes.datagram && INITIAL_WINDOW_PACKETS <= maxPackets
    && exists profile: Profile :: c == NewCore(ConfigFor(profile), c.sizes.datagram, maxPackets, c.packetBuffer)
  }

  // ---- Windows ----

  predicate SizesFit(s: Sizes, maxPackets: int) {
    && 0 < s.datagram && s.least == MIN_WINDOW_PACKETS * s.datagram
    && s.initial == s.pacingFloor == INITIAL_WINDOW_PACKETS * s.datagram && s.most == maxPackets * s.datagram
  }

  predicate WindowsFit(c: Core, maxPackets: int) {
    && SizesFit(c.sizes, maxPackets)
    && c.sizes.least <= c.window <= c.sizes.most && c.sizes.least <= c.recovery.window
  }

  lemma SizesAreOrdered(s: Sizes, maxPackets: int)
    requires SizesFit(s, maxPackets) && INITIAL_WINDOW_PACKETS <= maxPackets
    ensures s.least < s.initial <= s.most
  {
    assert INITIAL_WINDOW_PACKETS * s.datagram <= maxPackets * s.datagram;
  }

  // The model touches no window, except that entering recovery clears the recovery window.
  lemma ModelKeepsWindows(c: Core, f: Facts)
    ensures var m := Modelled(c, f);
            && m.sizes == c.sizes && m.window == c.window && m.lastSent == c.lastSent && m.config == c.config
            && m.pacing == c.pacing
            && (m.recovery.window == c.recovery.window || (m.recovery.window == 0 && m.recovery.state == Conservation))
  {
    hide Target, AdvancesCycle, LosesTooMuch, Grows, CycleStart, CycleGain, MinRttExpires, HoldsLowGain, StartsRound,
         GainCycled, FullBandwidthChecked, StartupOrDrainLeft, ProbeServed;
  }

  lemma EventKeepsWindows(c: Core, f: Facts, maxAckHeight: int, maxPackets: int)
    requires WindowsFit(c, maxPackets) && INITIAL_WINDOW_PACKETS <= maxPackets && CanPace(Modelled(c, f), f)
    ensures WindowsFit(AfterFacts(c, f, maxAckHeight), maxPackets)
  {
    SizesAreOrdered(c.sizes, maxPackets);
    ModelKeepsWindows(c, f);
    hide Modelled, PacingUpdated, Target, Overshoots, SizesFit, CanPace, AckAllowance, RecoveryFloor, RoundClosed;
  }

  lemma RescaleIsExact(packets: int, oldSize: int, newSize: int)
    requires 0 < oldSize
    ensures Rescale(packets * oldSize, oldSize, newSize) == packets * newSize
  {
    var x := packets * newSize;
    assert packets * oldSize * newSize == x * oldSize;
    assert x * oldSize / oldSize == x by { DivisionUndoesProduct(x, oldSize); }
  }

  lemma DivisionUndoesProduct(x: int, y: int)
    requires 0 < y
    ensures x * y / y == x
  {
    var q := x * y / y;
    assert x * y == q * y + x * y % y;
    assert (x - q) * y == x * y % y;
    assert x - q >= 1 ==> (x - q) * y >= y;
    assert x - q <= -1 ==> (x - q) * y < 0;
  }

  lemma ResizeKeepsWindows(c: Core, size: int, maxPackets: int)
    requires WindowsFit(c, maxPackets) && INITIAL_WINDOW_PACKETS <= maxPackets && c.sizes.datagram <= size
    ensures WindowsFit(Resized(c, size), maxPackets)
    ensures c.window <= Resized(c, size).window
  {
    RescaleIsExact(INITIAL_WINDOW_PACKETS, c.sizes.datagram, size);
    RescaleIsExact(maxPackets, c.sizes.datagram, size);
    hide Rescale;
    var s := SizesRescaled(c.sizes, size);
    SizesAreOrdered(s, maxPackets);
    assert maxPackets * c.sizes.datagram <= maxPackets * size;
  }

  lemma StepKeepsWindows(c: Core, step: Step, maxPackets: int)
    requires WindowsFit(c, maxPackets) && INITIAL_WINDOW_PACKETS <= maxPackets && Enabled(c, step)
    ensures WindowsFit(Next(c, step), maxPackets)
  {
    hide AfterFacts, Modelled, Resized, CanPace;
    match step
    case Congestion(f, h) => EventKeepsWindows(c, f, h, maxPackets);
    case Send(_, _) =>
    case Resize(size) => ResizeKeepsWindows(c, size, maxPackets);
  }

  // In every reachable state the windows are an exact number of datagrams, however often the datagram size was
  // raised, and what the connection is told lies between the smallest and the largest window, in every mode and
  // recovery state.
  lemma {:induction false} WindowsStayBounded(states: seq<Core>, steps: seq<Step>, maxPackets: int, i: nat)
    requires IsRun(states, steps) && IsStart(states[0], maxPackets) && i < |states|
    ensures WindowsFit(states[i], maxPackets)
    ensures states[i].sizes.least <= CongestionWindow(states[i]) <= states[i].sizes.most
  {
    hide Next, Enabled;
    if i == 0 {
      assert INITIAL_WINDOW_PACKETS * states[0].sizes.datagram <= maxPackets * states[0].sizes.datagram;
    } else {
      WindowsStayBounded(states, steps, maxPackets, i - 1);
      StepKeepsWindows(states[i - 1], steps[i - 1], maxPackets);
    }
  }

  // After every congestion event in recovery outside PROBE_RTT, the window offered is at least half the
  // bandwidth-delay target, unless the ordinary window is itself smaller.
  lemma RecoveryNeverPinsTheWindow(c: Core, f: Facts, maxAckHeight: int)
    requires CanPace(Modelled(c, f), f)
    ensures var r := AfterFacts(c, f, maxAckHeight);
            InRecovery(r) && r.gains.mode != ProbeRtt ==>
              CongestionWindow(r) >= Min(r.window, Target(r, f.bandwidth, f.rttMin, 1.0) / 2)
  {
    var m, r := Modelled(c, f), AfterFacts(c, f, maxAckHeight);
    assert r.rtt == m.rtt && r.sizes == m.sizes;
    assert Target(r, f.bandwidth, f.rttMin, 1.0) == Target(m, f.bandwidth, f.rttMin, 1.0);
    hide Modelled, PacingUpdated, WindowUpdated, Target, Overshoots, CanPace, RoundClosed;
  }

  // At full bandwidth outside PROBE_RTT, the window never exceeds the target plus the measured ack aggregation,
  // grows by no more than what was acknowledged, and otherwise is exactly the lower of the two, within its limits.
  lemma WindowFollowsTarget(c: Core, f: Facts, maxAckHeight: int, maxPackets: int)
    requires WindowsFit(c, maxPackets) && INITIAL_WINDOW_PACKETS <= maxPackets && CanPace(Modelled(c, f), f)
    requires 0 <= f.bytesAcked && 0 <= maxAckHeight
    ensures var r := AfterFacts(c, f, maxAckHeight);
            var target := Target(r, f.bandwidth, f.rttMin, r.gains.window) + maxAckHeight;
            r.growth.full && r.gains.mode != ProbeRtt ==>
              && r.window <= target && r.window <= c.window + f.bytesAcked
              && (r.window == target || r.window == c.window + f.bytesAcked || r.window == r.sizes.most)
  {
    ModelKeepsWindows(c, f);
    var m, r := Modelled(c, f), AfterFacts(c, f, maxAckHeight);
    assert r.rtt == m.rtt && r.sizes == m.sizes && r.gains == m.gains;
    assert Target(r, f.bandwidth, f.rttMin, r.gains.window) == Target(m, f.bandwidth, f.rttMin, m.gains.window);
    hide Modelled, PacingUpdated, RecoveryWindowUpdated, Target, Overshoots, CanPace, RoundClosed;
  }

  // ---- Modes and gains ----

  predicate ModeFits(c: Core) {
    var g := c.gains;
    match g.mode
    case Startup => !c.growth.full && g.pacing == c.config.highGain && g.window == c.config.highCwndGain
    case Drain => c.growth.full && g.pacing == c.config.drainGain && g.window == c.config.highCwndGain
    case ProbeBw =>
      && c.growth.full && g.window == c.config.cwndGainConstant && 0 <= g.offset < GAIN_CYCLE_LENGTH
      && (|| g.pacing == CycleGain(g.offset)
          || (c.config.drainToTarget && g.pacing == 0.75 && CycleGain(g.offset) == 1.0))
    case ProbeRtt => g.pacing == 1.0
  }

  predicate GainFollows(before: real, after: real) {
    || after == before || (before == 1.25 && after == 0.75) || (before == 0.75 && (after == 1.0 || after == 1.25))
    || (before == 1.0 && after == 1.25)
  }

  // What one step can do to the mode.
  predicate ModeStep(c: Core, r: Core) {
    && r.config == c.config && ModeFits(r)
    && (c.growth.full ==> r.growth.full)
    && (c.gains.mode == ProbeBw && r.gains.mode == ProbeBw ==> GainFollows(c.gains.pacing, r.gains.pacing))
  }

  lemma MeasuringKeeps(c: Core, f: Facts)
    ensures var m := Measured(c, f);
            && m.config == c.config && m.gains == c.gains && m.probe == c.probe && m.sizes == c.sizes
            && m.growth == SampleNoted(c.growth, f) && m.rtt == MinRttUpdated(c.rtt, f) && m.inFlight == f.inFlight
            && m.recovery == Begun(c, f).recovery && m.rounds == LossesCounted(Begun(c, f).rounds, f)
            && m.lastSent == c.lastSent && m.packetBuffer == c.packetBuffer
  {
    hide StartsRound, SampleNoted, MinRttUpdated, LossesCounted;
  }

  lemma CyclingKeepsModes(c: Core, f: Facts)
    requires ModeFits(c)
    ensures ModeStep(c, c.(gains := GainCycled(c, f))) && GainCycled(c, f).mode == c.gains.mode
  {
    hide Target, AdvancesCycle;
  }

  // Sampling moves no mode, but may set the full-bandwidth flag while it was not set.
  lemma SamplingKeepsModes(c: Core, f: Facts)
    requires ModeFits(c)
    ensures var m := Sampled(c, f);
            && m.config == c.config && m.gains.mode == c.gains.mode && ModeStep(c, m.(growth := c.growth))
            && (c.growth.full ==> m.growth.full) && m.probe == c.probe
  {
    MeasuringKeeps(c, f);
    var m := Measured(c, f);
    assert ModeFits(m) by { hide Measured; }
    CyclingKeepsModes(m, f);
    hide Measured, GainCycled, LosesTooMuch, Grows, IsRoundStart;
  }

  lemma MovingKeepsModes(c: Core, f: Facts)
    requires ModeFits(c)
    ensures ModeStep(c, Moved(c, f))
    ensures Moved(c, f).gains.mode == ProbeRtt && c.gains.mode != ProbeRtt ==> Moved(c, f).probe.exitAt == 0
    ensures c.gains.mode != ProbeBw && Moved(c, f).gains.mode == ProbeBw ==> c.gains.mode != ProbeRtt
    ensures Moved(c, f).config == c.config
  {
    SamplingKeepsModes(c, f);
    hide Sampled, Target, CycleStart, CycleGain, MinRttExpires;
  }

  lemma ModelKeepsModes(c: Core, f: Facts)
    requires ModeFits(c)
    ensures ModeStep(c, Modelled(c, f))
  {
    MovingKeepsModes(c, f);
    hide Moved, CycleStart, ProbeServed;
  }

  lemma StepKeepsModes(c: Core, step: Step)
    requires ModeFits(c) && Enabled(c, step)
    ensures ModeStep(c, Next(c, step))
  {
    if step.Congestion? {
      ModelKeepsModes(c, step.f);
      hide Modelled, WindowUpdated, PacingUpdated, RecoveryWindowUpdated, CanPace, RoundClosed;
    } else {
      hide SizesRescaled, CanPace;
    }
  }

  // After every step the mode, the full-bandwidth flag and the gains agree.
  lemma {:induction false} ModesAlwaysFit(states: seq<Core>, steps: seq<Step>, maxPackets: int, i: nat)
    requires IsRun(states, steps) && IsStart(states[0], maxPackets) && i < |states|
    ensures ModeFits(states[i]) && states[i].config == states[0].config
  {
    hide Next, Enabled;
    if i != 0 {
      hide ModeFits;
      ModesAlwaysFit(states, steps, maxPackets, i - 1);
      StepKeepsModes(states[i - 1], steps[i - 1]);
    }
  }

  // Once full bandwidth is reached it stays reached, and STARTUP is never entered again.
  lemma {:induction false} StartupIsNeverReentered(states: seq<Core>, steps: seq<Step>, maxPackets: int, i: nat, k: nat)
    requires IsRun(states, steps) && IsStart(states[0], maxPackets)
    requires i <= k < |states| && states[i].growth.full
    ensures states[k].growth.full && states[k].gains.mode != Startup
    decreases k
  {
    hide Next, Enabled, IsStart;
    ModesAlwaysFit(states, steps, maxPackets, k);
    if i < k {
      StartupIsNeverReentered(states, steps, maxPackets, i, k - 1);
      ModesAlwaysFit(states, steps, maxPackets, k - 1);
      StepKeepsModes(states[k - 1], steps[k - 1]);
    }
  }

  // Within one stay in PROBE_BW, a probing phase is always drained before the sender cruises.
  lemma {:induction false} ProbingIsDrained(states: seq<Core>, steps: seq<Step>, maxPackets: int, i: nat, k: nat)
    returns (j: nat)
    requires IsRun(states, steps) && IsStart(states[0], maxPackets)
    requires i < k < |states| && forall n | i <= n <= k :: states[n].gains.mode == ProbeBw
    requires states[i].gains.pacing == 1.25 && states[k].gains.pacing == 1.0
    ensures i < j < k && states[j].gains.pacing == 0.75
    decreases k - i
  {
    hide Next, Enabled, IsStart;
    ModesAlwaysFit(states, steps, maxPackets, i);
    StepKeepsModes(states[i], steps[i]);
    assert GainFollows(states[i].gains.pacing, states[i + 1].gains.pacing);
    if states[i + 1].gains.pacing == 0.75 {
      j := i + 1;
    } else {
      j := ProbingIsDrained(states, steps, maxPackets, i + 1, k);
    }
  }

  // ---- Ratchets of the start-up phase ----

  // Neither the window nor the pacing rate goes down, except for the one correction of an overshoot.
  predicate Ratchets(c: Core, r: Core) {
    && c.window <= r.window && 0 <= r.pacing.rate
    && (r.pacing.detectOvershooting ==> c.pacing.detectOvershooting)
    && (r.pacing.rate < c.pacing.rate ==> c.pacing.detectOvershooting && !r.pacing.detectOvershooting)
  }

  lemma PacingRatchets(c: Core, f: Facts)
    requires CanPace(c, f) && 0 <= c.pacing.rate && !c.growth.full
    ensures Ratchets(c, c.(pacing := PacingUpdated(c, f)))
  {
    hide Scale;
  }

  lemma EventRatchets(c: Core, f: Facts, maxAckHeight: int)
    requires CanPace(Modelled(c, f), f) && 0 <= f.bytesAcked && 0 <= c.pacing.rate && c.window <= c.sizes.most
    ensures var r := AfterFacts(c, f, maxAckHeight);
            !r.growth.full ==> Ratchets(c, r)
  {
    ModelKeepsWindows(c, f);
    var m := Modelled(c, f);
    if !m.growth.full {
      PacingRatchets(m, f);
    }
    hide Modelled, PacingUpdated, Target, CanPace, Overshoots, RecoveryWindowUpdated, RoundClosed, AckAllowance;
  }

  lemma StartupStepRatchets(states: seq<Core>, steps: seq<Step>, maxPackets: int, i: nat)
    requires IsRun(states, steps) && IsStart(states[0], maxPackets)
    requires i + 1 < |states| && 0 <= states[i].pacing.rate && !states[i + 1].growth.full
    ensures Ratchets(states[i], states[i + 1])
  {
    WindowsStayBounded(states, steps, maxPackets, i);
    StepRatchets(states[i], steps[i], maxPackets);
    hide Next, Enabled, IsStart, Ratchets;
  }

  lemma StepRatchets(c: Core, step: Step, maxPackets: int)
    requires WindowsFit(c, maxPackets) && INITIAL_WINDOW_PACKETS <= maxPackets && Enabled(c, step) && 0 <= c.pacing.rate
    ensures !Next(c, step).growth.full ==> Ratchets(c, Next(c, step))
  {
    if step.Congestion? {
      EventRatchets(c, step.f, step.maxAckHeight);
      hide Modelled, AfterFacts, CanPace, Ratchets;
    } else if step.Resize? {
      ResizeKeepsWindows(c, step.size, maxPackets);
      hide SizesRescaled;
    }
  }

  // The number of steps up to state k at which the pacing rate went down.
  function Decreases(states: seq<Core>, k: nat): nat
    requires k < |states|
  {
    if k == 0 then 0 else Decreases(states, k - 1) + if states[k].pacing.rate < states[k - 1].pacing.rate then 1 else 0
  }

  // Until full bandwidth is reached, the pacing rate goes down at most once, and only in a profile that detects
  // overshooting.
  lemma {:induction false} StartupPacingDecreasesAtMostOnce(states: seq<Core>, steps: seq<Step>, maxPackets: int, k: nat)
    requires IsRun(states, steps) && IsStart(states[0], maxPackets)
    requires k < |states| && !states[k].growth.full
    ensures 0 <= states[k].pacing.rate
    ensures Decreases(states, k) <= 1
    ensures states[k].pacing.detectOvershooting ==> states[0].config.detectOvershooting && Decreases(states, k) == 0
    ensures !states[0].config.detectOvershooting ==> Decreases(states, k) == 0
  {
    hide Next, Enabled;
    if k != 0 {
      hide IsStart;
      if states[k - 1].growth.full {
        StartupIsNeverReentered(states, steps, maxPackets, k - 1, k);
      }
      StartupPacingDecreasesAtMostOnce(states, steps, maxPackets, k - 1);
      StartupStepRatchets(states, steps, maxPackets, k - 1);
    }
  }

  // Until then the congestion window never shrinks, through all events and datagram sizes.
  lemma {:induction false} StartupWindowNeverShrinks(states: seq<Core>, steps: seq<Step>, maxPackets: int, i: nat, k: nat)
    requires IsRun(states, steps) && IsStart(states[0], maxPackets)
    requires i <= k < |states| && !states[k].growth.full
    ensures states[i].window <= states[k].window
    decreases k
  {
    hide Next, Enabled, IsStart;
    if i < k {
      if states[k - 1].growth.full {
        StartupIsNeverReentered(states, steps, maxPackets, k - 1, k);
      }
      StartupWindowNeverShrinks(states, steps, maxPackets, i, k - 1);
      StartupPacingDecreasesAtMostOnce(states, steps, maxPackets, k - 1);
      StartupStepRatchets(states, steps, maxPackets, k - 1);
    }
  }

  // ---- The overshooting branch ----

  // The guard under which an event divides by the connection's minimum RTT, read off the sender as it was before the
  // event, given its mode and full-bandwidth flag after the model is updated.
  predicate CorrectsOvershoot(c: Core, f: Facts, mode: Mode, full: bool) {
    var lost := c.pacing.bytesLost + f.bytesLost;
    && c.pacing.detectOvershooting && !full && f.bandwidth != 0 && 0 < lost
    && !(c.pacing.rate == 0 && f.rttMin != 0)
    && c.pacing.rate > Scale(if mode == ProbeRtt then 1.0 else c.config.highGain, f.bandwidth)
    && (c.growth.hasNoAppLimited || (f.sendState.isValid && !f.sendState.isAppLimited)
        || lost * c.config.bytesLostMultiplier > c.sizes.initial)
  }

  lemma ModelKeepsLimits(c: Core, f: Facts)
    ensures Modelled(c, f).growth.hasNoAppLimited == (c.growth.hasNoAppLimited || (f.sendState.isValid && !f.sendState.isAppLimited))
  {
    MeasuringKeeps(c, f);
    var m := Modelled(c, f);
    assert m.growth == Sampled(c, f).growth by {
      hide Sampled, StartupOrDrainLeft, MinRttExpires, ProbeServed, CycleStart, EntersProbeRtt;
    }
    hide Measured, Modelled, GainCycled, LosesTooMuch, Grows, IsRoundStart;
  }

  // Over every run, an event panics exactly when it corrects an overshoot while the connection has no minimum RTT; only
  // the conservative profile does, and only while it still detects overshooting, before full bandwidth.
  lemma PacingPanicsExactlyOnOvershootWithoutRtt(states: seq<Core>, steps: seq<Step>, maxPackets: int, i: nat, f: Facts)
    requires IsRun(states, steps) && IsStart(states[0], maxPackets) && i < |states|
    ensures var c, m := states[i], Modelled(states[i], f);
            !CanPace(m, f) <==> f.rttMin == 0 && CorrectsOvershoot(c, f, m.gains.mode, m.growth.full)
    ensures !CanPace(Modelled(states[i], f), f) ==>
              f.rttMin == 0 && states[i].pacing.detectOvershooting && !states[i].growth.full
              && states[0].config == ConfigFor(Conservative) && Decreases(states, i) == 0
  {
    var c := states[i];
    ModesAlwaysFit(states, steps, maxPackets, i);
    ModelKeepsModes(c, f);
    ModelKeepsWindows(c, f);
    ModelKeepsLimits(c, f);
    if !c.growth.full { StartupPacingDecreasesAtMostOnce(states, steps, maxPackets, i); }
    if states[0].config.detectOvershooting { OnlyConservativeDetects(states[0], maxPackets); }
    hide IsRun, IsStart, Modelled, Scale, ConfigFor, Decreases;
  }

  lemma OnlyConservativeDetects(c: Core, maxPackets: int)
    requires IsStart(c, maxPackets) && c.config.detectOvershooting
    ensures c.config == ConfigFor(Conservative)
  {
  }
}
