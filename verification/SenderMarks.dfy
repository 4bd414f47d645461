// When things happen to the sender. The marks that decide about rounds, recovery, PROBE_RTT, the minimum RTT, the gain
// cycle and the end of start-up are defined over the history of a run, and each change is shown to happen exactly when
// that history calls for it.
module SenderMarks {
  import opened Options
  import opened Rates
  import opened SamplerStates
  import opened SenderRounds
  import opened SenderRuns
  import opened SenderStates

  // ---- Rounds ----

  // Step i starts a round.
  predicate Raises(states: seq<Core>, i: nat)
    requires i + 1 < |states|
  {
    states[i + 1].rounds.count != states[i].rounds.count
  }

  predicate EntersRecovery(states: seq<Core>, i: nat)
    requires i + 1 < |states|
  {
    !InRecovery(states[i]) && InRecovery(states[i + 1])
  }

  // The last packet sent before the latest step that started a round or entered recovery; -1 before any did.
  function RoundMark(states: seq<Core>, i: nat): int
    requires i < |states|
  {
    if i == 0 then INVALID_PACKET
    else if Raises(states, i - 1) || EntersRecovery(states, i - 1) then states[i - 1].lastSent
    else RoundMark(states, i - 1)
  }

  // What one step does to the round count and its mark.
  lemma StepRound(c: Core, step: Step)
    requires Enabled(c, step) && (c.rounds.end == INVALID_PACKET || 0 <= c.rounds.end)
    ensures var r := Next(c, step);
            var raises := IsAck(step) && step.f.lastAcked.value > c.rounds.end;
            && r.rounds.count == c.rounds.count + (if raises then 1 else 0)
            && r.rounds.end == if raises || (!InRecovery(c) && InRecovery(r)) then c.lastSent else c.rounds.end
  {
    if step.Congestion? {
      assert step.f.lastAcked.Some? ==> 0 <= step.f.lastAcked.value;
      EventKeepsRounds(c, step.f, step.maxAckHeight);
      hide AfterFacts, Modelled, CanPace;
    } else {
      hide SizesRescaled, CanPace;
    }
  }

  lemma {:induction false} RoundEndIsMark(states: seq<Core>, steps: seq<Step>, maxPackets: int, i: nat)
    requires IsRun(states, steps) && IsStart(states[0], maxPackets) && i < |states|
    ensures states[i].rounds.end == RoundMark(states, i)
    ensures RoundMark(states, i) == INVALID_PACKET || 0 <= RoundMark(states, i)
    ensures INVALID_PACKET <= states[i].lastSent
  {
    hide Next, Enabled;
    if i != 0 {
      hide IsStart;
      RoundEndIsMark(states, steps, maxPackets, i - 1);
      MarksAlwaysFit(states, steps, maxPackets, i - 1);
      MarksAlwaysFit(states, steps, maxPackets, i);
      assert Enabled(states[i - 1], steps[i - 1]) && states[i] == Next(states[i - 1], steps[i - 1]);
      hide IsRun;
      StepRound(states[i - 1], steps[i - 1]);
      MarkIsSent(states[i - 1], steps[i - 1]);
    }
  }

  // Only an acknowledgement of a packet already sent moves the mark.
  lemma MarkIsSent(c: Core, step: Step)
    requires MarksFit(c) && Enabled(c, step)
    ensures IsAck(step) ==> 0 <= c.lastSent
    ensures !InRecovery(c) && InRecovery(Next(c, step)) ==> IsAck(step)
  {
    StepMarks(c, step);
    hide Next, CanPace, Modelled;
  }

  // A round starts exactly at an acknowledgement beyond the mark: beyond everything sent before the latest round start
  // or entry into recovery.
  lemma RoundStartsExactlyBeyondMark(states: seq<Core>, steps: seq<Step>, maxPackets: int, i: nat)
    requires IsRun(states, steps) && IsStart(states[0], maxPackets) && i < |steps|
    ensures Raises(states, i) <==> IsAck(steps[i]) && steps[i].f.lastAcked.value > RoundMark(states, i)
    ensures Raises(states, i) ==> states[i + 1].rounds.count == states[i].rounds.count + 1
  {
    hide Next, Enabled, IsStart;
    RoundEndIsMark(states, steps, maxPackets, i);
    assert Enabled(states[i], steps[i]) && states[i + 1] == Next(states[i], steps[i]);
    hide IsRun;
    StepRound(states[i], steps[i]);
  }

  // So the first acknowledgement always starts a round.
  lemma {:induction false} FirstAckStartsRound(states: seq<Core>, steps: seq<Step>, maxPackets: int, i: nat)
    requires IsRun(states, steps) && IsStart(states[0], maxPackets) && i < |steps|
    requires IsAck(steps[i]) && forall n | 0 <= n < i :: !IsAck(steps[n])
    ensures Raises(states, i)
  {
    NoMarkWithoutAck(states, steps, maxPackets, i);
    assert 0 <= steps[i].f.lastAcked.value by { assert Enabled(states[i], steps[i]); }
    hide Next, Enabled, IsStart;
    RoundStartsExactlyBeyondMark(states, steps, maxPackets, i);
  }

  lemma {:induction false} NoMarkWithoutAck(states: seq<Core>, steps: seq<Step>, maxPackets: int, i: nat)
    requires IsRun(states, steps) && IsStart(states[0], maxPackets) && i < |states|
    requires forall n | 0 <= n < i :: !IsAck(steps[n])
    ensures RoundMark(states, i) == INVALID_PACKET
  {
    hide Next, Enabled, IsStart;
    if i != 0 {
      NoMarkWithoutAck(states, steps, maxPackets, i - 1);
      RoundStartsExactlyBeyondMark(states, steps, maxPackets, i - 1);
      MarksAlwaysFit(states, steps, maxPackets, i - 1);
      assert Enabled(states[i - 1], steps[i - 1]) && states[i] == Next(states[i - 1], steps[i - 1]);
      hide IsRun;
      MarkIsSent(states[i - 1], steps[i - 1]);
    }
  }

  // ---- Recovery ----

  // The last packet sent before the latest acknowledgement that reported losses at full bandwidth; -1 before any.
  function RecoveryMark(states: seq<Core>, steps: seq<Step>, i: nat): int
    requires i <= |steps| < |states|
  {
    if i == 0 then INVALID_PACKET
    else if LossyAck(states[i - 1], steps[i - 1]) then states[i - 1].lastSent
    else RecoveryMark(states, steps, i - 1)
  }

  // What one step does to recovery.
  lemma StepRecovery(c: Core, step: Step)
    requires Enabled(c, step) && (InRecovery(c) ==> c.growth.full) && INVALID_PACKET <= c.rounds.end
    ensures var r := Next(c, step);
            var raises := r.rounds.count != c.rounds.count;
            && r.recovery.endAt == (if LossyAck(c, step) then c.lastSent else c.recovery.endAt)
            && r.recovery.state
               == (if c.recovery.state == NotInRecovery then if LossyAck(c, step) then Conservation else NotInRecovery
                   else if IsAck(step) && !step.f.hasLosses && step.f.lastAcked.value > c.recovery.endAt then NotInRecovery
                   else if c.recovery.state == Conservation && raises then SlowGrowth
                   else c.recovery.state)
  {
    if step.Congestion? {
      EventKeepsRounds(c, step.f, step.maxAckHeight);
      hide AfterFacts, Modelled, CanPace;
    } else {
      hide SizesRescaled, CanPace;
    }
  }

  lemma {:induction false} RecoveryIsFull(states: seq<Core>, steps: seq<Step>, maxPackets: int, i: nat)
    requires IsRun(states, steps) && IsStart(states[0], maxPackets) && i < |states|
    ensures InRecovery(states[i]) ==> states[i].growth.full
    ensures i <= |steps| && states[i].recovery.endAt == RecoveryMark(states, steps, i)
  {
    hide Next, Enabled;
    if i != 0 {
      hide IsStart;
      RecoveryIsFull(states, steps, maxPackets, i - 1);
      MarksAlwaysFit(states, steps, maxPackets, i - 1);
      ModesAlwaysFit(states, steps, maxPackets, i - 1);
      assert Enabled(states[i - 1], steps[i - 1]) && states[i] == Next(states[i - 1], steps[i - 1]);
      hide IsRun;
      StepRecovery(states[i - 1], steps[i - 1]);
      StepKeepsModes(states[i - 1], steps[i - 1]);
    }
  }

  // Recovery is entered exactly at a lossy acknowledgement at full bandwidth; it is left exactly at a loss-free one
  // beyond the mark, that is beyond everything sent before the latest lossy one; until then CONSERVATION gives way to
  // growth exactly at the next round start.
  lemma RecoveryFollowsHistory(states: seq<Core>, steps: seq<Step>, maxPackets: int, i: nat)
    requires IsRun(states, steps) && IsStart(states[0], maxPackets) && i < |steps|
    ensures states[i + 1].recovery.state
            == if states[i].recovery.state == NotInRecovery then
                 if LossyAck(states[i], steps[i]) then Conservation else NotInRecovery
               else if IsAck(steps[i]) && !steps[i].f.hasLosses && steps[i].f.lastAcked.value > RecoveryMark(states, steps, i) then
                 NotInRecovery
               else if states[i].recovery.state == Conservation && Raises(states, i) then SlowGrowth
               else states[i].recovery.state
  {
    hide Next, Enabled, IsStart;
    RecoveryIsFull(states, steps, maxPackets, i);
    MarksAlwaysFit(states, steps, maxPackets, i);
    assert Enabled(states[i], steps[i]) && states[i + 1] == Next(states[i], steps[i]);
    hide IsRun;
    StepRecovery(states[i], steps[i]);
  }

  // ---- The minimum RTT ----

  predicate LeavesProbing(states: seq<Core>, i: nat)
    requires i + 1 < |states|
  {
    states[i].gains.mode == ProbeRtt && states[i + 1].gains.mode != ProbeRtt
  }

  // The sample is the first, or below the estimate.
  predicate Lowers(c: Core, step: Step) { HasRtt(step) && (c.rtt.min == 0 || step.f.rtt < c.rtt.min) }

  // The time of the latest event that lowered or replaced the estimate or ended a visit to PROBE_RTT.
  function Stamp(states: seq<Core>, steps: seq<Step>, i: nat): int
    requires i <= |steps| < |states|
    decreases i, 0
  {
    if i == 0 then 0
    else if steps[i - 1].Congestion?
            && (Lowers(states[i - 1], steps[i - 1]) || Expires(states, steps, i - 1) || LeavesProbing(states, i - 1))
    then steps[i - 1].f.time
    else Stamp(states, steps, i - 1)
  }

  // A sample that comes more than ten seconds later replaces the estimate.
  predicate Expires(states: seq<Core>, steps: seq<Step>, i: nat)
    requires i < |steps| < |states|
    decreases i, 1
  {
    HasRtt(steps[i]) && states[i].rtt.min != 0 && steps[i].f.time > Stamp(states, steps, i) + 10_000_000_000
  }

  lemma StepStamp(c: Core, step: Step)
    requires Enabled(c, step)
    ensures var r := Next(c, step);
            r.rtt.timestamp
            == if step.Congestion?
                  && (Lowers(c, step)
                      || (HasRtt(step) && c.rtt.min != 0 && step.f.time > c.rtt.timestamp + 10_000_000_000)
                      || (c.gains.mode == ProbeRtt && r.gains.mode != ProbeRtt))
               then step.f.time else c.rtt.timestamp
  {
    if step.Congestion? {
      EventStamps(c, step.f, step.maxAckHeight);
      hide AfterFacts, Modelled, CanPace, Moved;
    } else {
      hide SizesRescaled, CanPace;
    }
  }

  lemma EventStamps(c: Core, f: Facts, maxAckHeight: int)
    requires CanPace(Modelled(c, f), f)
    ensures var r := AfterFacts(c, f, maxAckHeight);
            r.rtt.timestamp == if c.gains.mode == ProbeRtt && r.gains.mode != ProbeRtt then f.time else MinRttUpdated(c.rtt, f).timestamp
  {
    MovedRtt(c, f);
    MovingKeepsProbe(c, f);
    EventProbes(c, f, maxAckHeight);
    hide Moved, PacingUpdated, WindowUpdated, RecoveryWindowUpdated, RoundClosed, CanPace, IsRoundStart, CycleStart, MinRttUpdated;
  }

  lemma MovedRtt(c: Core, f: Facts)
    ensures Moved(c, f).rtt == MinRttUpdated(c.rtt, f)
  {
    MeasuringKeeps(c, f);
    hide Measured, Target, GainCycled, FullBandwidthChecked, StartupOrDrainLeft, MinRttExpires, MinRttUpdated;
  }

  lemma {:induction false} TimestampIsStamp(states: seq<Core>, steps: seq<Step>, maxPackets: int, i: nat)
    requires IsRun(states, steps) && IsStart(states[0], maxPackets) && i < |states|
    ensures i <= |steps| < |states| && states[i].rtt.timestamp == Stamp(states, steps, i)
  {
    hide Next, Enabled;
    if i != 0 {
      hide IsStart;
      TimestampIsStamp(states, steps, maxPackets, i - 1);
      assert Enabled(states[i - 1], steps[i - 1]) && states[i] == Next(states[i - 1], steps[i - 1]);
      hide IsRun;
      StepStamp(states[i - 1], steps[i - 1]);
    }
  }

  // The estimate expires exactly when a sample comes more than ten seconds after the stamp.
  lemma MinRttExpiresExactly(states: seq<Core>, steps: seq<Step>, maxPackets: int, i: nat)
    requires IsRun(states, steps) && IsStart(states[0], maxPackets) && i < |steps| && steps[i].Congestion?
    ensures |states| == |steps| + 1
    ensures MinRttExpires(states[i].rtt, steps[i].f) <==> Expires(states, steps, i)
  {
    TimestampIsStamp(states, steps, maxPackets, i);
    hide IsStart, Next, Enabled, Stamp;
  }

  // The RTT samples since the latest expiry, the one that came with it included.
  function SamplesSince(states: seq<Core>, steps: seq<Step>, k: nat): seq<int>
    requires k <= |steps| < |states|
  {
    if k == 0 then []
    else if !HasRtt(steps[k - 1]) then SamplesSince(states, steps, k - 1)
    else if Expires(states, steps, k - 1) then [steps[k - 1].f.rtt]
    else SamplesSince(states, steps, k - 1) + [steps[k - 1].f.rtt]
  }

  lemma {:induction false} SamplesAgree(states: seq<Core>, steps: seq<Step>, maxPackets: int, k: nat)
    requires IsRun(states, steps) && IsStart(states[0], maxPackets) && k <= |steps|
    ensures |states| == |steps| + 1 && SamplesSince(states, steps, k) == SamplesSinceExpiry(states, steps, k)
  {
    hide IsStart, Next, Enabled, Expires, MinRttExpires;
    if k != 0 {
      SamplesAgree(states, steps, maxPackets, k - 1);
      if steps[k - 1].Congestion? { MinRttExpiresExactly(states, steps, maxPackets, k - 1); }
    }
  }

  // The round trip the targets are computed with: the minimum of those samples, or without any the connection's own
  // minimum, or without that 100 ms.
  lemma RoundTripIsMinimum(states: seq<Core>, steps: seq<Step>, maxPackets: int, k: nat, rttMin: int)
    requires IsRun(states, steps) && IsStart(states[0], maxPackets) && k <= |steps|
    ensures |states| == |steps| + 1
    ensures var samples := SamplesSince(states, steps, k);
            if samples != [] then IsMinimum(samples, MinRtt(states[k], rttMin))
            else MinRtt(states[k], rttMin) == if rttMin != 0 then rttMin else 100_000_000
  {
    SamplesAgree(states, steps, maxPackets, k);
    MinRttIsMinimumSinceExpiry(states, steps, maxPackets, k);
    hide IsRun, IsStart, IsMinimum, SamplesSince, SamplesSinceExpiry;
  }

  // ---- PROBE_RTT ----

  // A packet was sent with nothing in flight since the latest event.
  function SentFromIdle(steps: seq<Step>, i: nat): bool
    requires i <= |steps|
  {
    if i == 0 then false
    else match steps[i - 1]
      case Congestion(_, _) => false
      case Send(_, bytesInFlight) => bytesInFlight == 0 || SentFromIdle(steps, i - 1)
      case Resize(_) => SentFromIdle(steps, i - 1)
  }

  lemma {:induction false} QuiescenceIsIdleness(states: seq<Core>, steps: seq<Step>, maxPackets: int, i: nat)
    requires IsRun(states, steps) && IsStart(states[0], maxPackets) && i < |states|
    ensures i <= |steps| && states[i].probe.exitingQuiescence == SentFromIdle(steps, i)
  {
    hide Next, Enabled;
    if i != 0 {
      hide IsStart;
      QuiescenceIsIdleness(states, steps, maxPackets, i - 1);
      assert Enabled(states[i - 1], steps[i - 1]) && states[i] == Next(states[i - 1], steps[i - 1]);
      hide IsRun;
      StepQuiescence(states[i - 1], steps[i - 1]);
    }
  }

  lemma StepQuiescence(c: Core, step: Step)
    requires Enabled(c, step)
    ensures Next(c, step).probe.exitingQuiescence
            == match step
               case Congestion(_, _) => false
               case Send(_, bytesInFlight) => bytesInFlight == 0 || c.probe.exitingQuiescence
               case Resize(_) => c.probe.exitingQuiescence
  {
    hide Moved, PacingUpdated, WindowUpdated, RecoveryWindowUpdated, RoundClosed, CanPace, ProbeServed, SizesRescaled, LeavesProbeRtt;
  }

  // The first step of the current visit to PROBE_RTT that saw little enough in flight; -1 if none has yet.
  function FirstDrained(states: seq<Core>, steps: seq<Step>, k: nat): (j: int)
    requires k <= |steps| < |states|
    ensures -1 <= j < k
    ensures 0 <= j ==> steps[j].Congestion?
  {
    if k == 0 then -1
    else if states[k - 1].gains.mode == ProbeRtt && FirstDrained(states, steps, k - 1) >= 0 then FirstDrained(states, steps, k - 1)
    else if Drained(states[k - 1], steps[k - 1]) then k - 1
    else -1
  }

  // A round started after step j and before step k.
  ghost predicate RoundBetween(states: seq<Core>, j: int, k: nat)
    requires k < |states|
  {
    exists m: nat | j < m < k :: Raises(states, m)
  }

  // What one step does to the timer of a visit.
  lemma StepTimer(c: Core, step: Step)
    requires Enabled(c, step) && Next(c, step).gains.mode == ProbeRtt
    ensures var r := Next(c, step);
            if c.gains.mode == ProbeRtt && c.probe.exitAt != 0 then
              && r.probe.exitAt == c.probe.exitAt
              && r.probe.roundPassed == (c.probe.roundPassed || RoundStarts(c, step))
            else
              && r.probe.exitAt == (if Drained(c, step) then step.f.time + 200_000_000 else 0)
              && (Drained(c, step) ==> !r.probe.roundPassed)
  {
    if step.Congestion? {
      EventProbes(c, step.f, step.maxAckHeight);
      hide AfterFacts, Modelled, CanPace, Moved;
    } else {
      hide SizesRescaled, CanPace;
    }
  }

  lemma {:induction false} TimerFollowsHistory(states: seq<Core>, steps: seq<Step>, maxPackets: int, k: nat)
    requires IsRun(states, steps) && IsStart(states[0], maxPackets) && k < |states| && states[k].gains.mode == ProbeRtt
    ensures k <= |steps| < |states|
    ensures var j := FirstDrained(states, steps, k);
            && states[k].probe.exitAt == (if j < 0 then 0 else steps[j].f.time + 200_000_000)
            && (0 <= j ==> 0 <= steps[j].f.time && (states[k].probe.roundPassed <==> RoundBetween(states, j, k)))
  {
    hide Next, Enabled, IsStart, RoundBetween;
    if k == 0 {
      assert false by { ModesAlwaysFit(states, steps, maxPackets, 0); StartsInStartup(states[0], maxPackets); }
    }
    var c, step := states[k - 1], steps[k - 1];
    assert Enabled(c, step) && states[k] == Next(c, step);
    MarksAlwaysFit(states, steps, maxPackets, k - 1);
    if c.gains.mode == ProbeRtt { TimerFollowsHistory(states, steps, maxPackets, k - 1); }
    hide IsRun;
    StepTimer(c, step);
    StepMarks(c, step);
    EventTime(c, step);
    NoRoundYet(states, k);
    if c.gains.mode == ProbeRtt && 0 <= FirstDrained(states, steps, k - 1) {
      RoundExtends(states, FirstDrained(states, steps, k - 1), k);
    }
  }

  lemma EventTime(c: Core, step: Step)
    requires Enabled(c, step)
    ensures step.Congestion? ==> 0 <= step.f.time
  {
    hide CanPace, Modelled;
  }

  lemma NoRoundYet(states: seq<Core>, k: nat)
    requires 0 < k < |states|
    ensures !RoundBetween(states, k - 1, k)
  {
  }

  lemma RoundExtends(states: seq<Core>, j: int, k: nat)
    requires 0 < k < |states| && 0 <= j < k - 1
    ensures RoundBetween(states, j, k) <==> RoundBetween(states, j, k - 1) || Raises(states, k - 1)
  {
    if RoundBetween(states, j, k - 1) {
      var m: nat :| j < m < k - 1 && Raises(states, m);
    }
  }

  // ---- Modes ----

  // Where an event leaves the mode.
  lemma StepMode(c: Core, step: Step)
    requires Enabled(c, step) && ModeFits(c) && step.Congestion?
    ensures var f, r := step.f, Next(c, step);
            r.gains.mode
            == if c.gains.mode == ProbeRtt then
                 if c.probe.exitAt != 0 && f.time >= c.probe.exitAt && (c.probe.roundPassed || RoundStarts(c, step)) then
                   if r.growth.full then ProbeBw else Startup
                 else ProbeRtt
               else if MinRttExpires(c.rtt, f) && !c.probe.exitingQuiescence then ProbeRtt
               else if c.gains.mode == ProbeBw then ProbeBw
               else if !r.growth.full then Startup
               else if f.inFlight <= Target(r, f.bandwidth, f.rttMin, 1.0) then ProbeBw
               else Drain
  {
    MovedMode(c, step.f);
    EventLeaves(c, step.f, step.maxAckHeight);
    hide AfterFacts, Modelled, CanPace, Moved, Target, MinRttExpires;
  }

  lemma MovedMode(c: Core, f: Facts)
    requires ModeFits(c)
    ensures var m := Moved(c, f);
            && m.inFlight == f.inFlight && m.probe.exitingQuiescence == c.probe.exitingQuiescence
            && (c.gains.mode == ProbeRtt ==> m.probe == c.probe)
            && (c.gains.mode != ProbeRtt && m.gains.mode == ProbeRtt ==> m.probe.exitAt == 0)
            && m.gains.mode
               == (if c.gains.mode == ProbeRtt then ProbeRtt
                   else if MinRttExpires(c.rtt, f) && !c.probe.exitingQuiescence then ProbeRtt
                   else if c.gains.mode == ProbeBw then ProbeBw
                   else if !m.growth.full then Startup
                   else if f.inFlight <= Target(m, f.bandwidth, f.rttMin, 1.0) then ProbeBw
                   else Drain)
  {
    MeasuringKeeps(c, f);
    CyclingKeepsModes(Measured(c, f), f);
    var m, r := Sampled(c, f), Moved(c, f);
    assert m.gains.mode == c.gains.mode && m.inFlight == f.inFlight && m.probe == c.probe && (c.growth.full ==> m.growth.full) by {
      hide Measured, GainCycled, LosesTooMuch, Grows, IsRoundStart, StartupOrDrainLeft;
    }
    assert r.growth == m.growth && r.rtt == m.rtt && r.sizes == m.sizes && r.inFlight == m.inFlight by {
      hide Sampled, StartupOrDrainLeft, MinRttExpires;
    }
    TargetReads(m, r, f.bandwidth, f.rttMin, 1.0);
    hide Sampled, Target, MinRttExpires, CycleStart;
  }

  // The target depends on the minimum RTT and the window sizes only.
  lemma TargetReads(c: Core, d: Core, bandwidth: int, rttMin: int, gain: real)
    requires c.rtt.min == d.rtt.min && c.sizes == d.sizes
    ensures Target(c, bandwidth, rttMin, gain) == Target(d, bandwidth, rttMin, gain)
  {
    hide Scale, Bdp;
  }

  lemma EventLeaves(c: Core, f: Facts, maxAckHeight: int)
    requires CanPace(Modelled(c, f), f)
    ensures var m, r := Moved(c, f), AfterFacts(c, f, maxAckHeight);
            && r.growth == m.growth
            && Target(r, f.bandwidth, f.rttMin, 1.0) == Target(m, f.bandwidth, f.rttMin, 1.0)
            && r.gains.mode == (if m.gains.mode == ProbeRtt && m.probe.exitAt != 0 && f.time >= m.probe.exitAt
                                   && (m.probe.roundPassed || IsRoundStart(c, f))
                                then if m.growth.full then ProbeBw else Startup
                                else m.gains.mode)
  {
    var m, r := Moved(c, f), AfterFacts(c, f, maxAckHeight);
    assert r.growth == m.growth && r.rtt.min == m.rtt.min && r.sizes == m.sizes by {
      hide Moved, PacingUpdated, WindowUpdated, RecoveryWindowUpdated, RoundClosed, CanPace, IsRoundStart, LeavesProbeRtt, ProbeServed;
    }
    TargetReads(m, r, f.bandwidth, f.rttMin, 1.0);
    hide Moved, PacingUpdated, WindowUpdated, RecoveryWindowUpdated, RoundClosed, CanPace, IsRoundStart, CycleStart, ProbeServed, Target;
  }

  // The mode after an event, exactly. PROBE_RTT is entered when the minimum RTT expires, unless the sender has just come
  // from idle, and left 200 ms after the first event of the visit that saw little enough in flight, once a round has
  // started since. DRAIN follows STARTUP at full bandwidth and gives way to PROBE_BW as soon as what is in flight is
  // within the target.
  lemma ModeFollowsHistory(states: seq<Core>, steps: seq<Step>, maxPackets: int, i: nat)
    requires IsRun(states, steps) && IsStart(states[0], maxPackets) && i < |steps| && steps[i].Congestion?
    ensures |states| == |steps| + 1
    ensures var f, r, j := steps[i].f, states[i + 1], FirstDrained(states, steps, i);
            r.gains.mode
            == if states[i].gains.mode == ProbeRtt then
                 if 0 <= j && f.time >= steps[j].f.time + 200_000_000 && RoundBetween(states, j, i + 1) then
                   if r.growth.full then ProbeBw else Startup
                 else ProbeRtt
               else if Expires(states, steps, i) && !SentFromIdle(steps, i) then ProbeRtt
               else if states[i].gains.mode == ProbeBw then ProbeBw
               else if !r.growth.full then Startup
               else if f.inFlight <= Target(r, f.bandwidth, f.rttMin, 1.0) then ProbeBw
               else Drain
  {
    hide Next, Enabled, IsStart, RoundBetween, Expires, MinRttExpires, Target, SentFromIdle;
    if states[i].gains.mode == ProbeRtt { TimerFollowsHistory(states, steps, maxPackets, i); }
    MinRttExpiresExactly(states, steps, maxPackets, i);
    QuiescenceIsIdleness(states, steps, maxPackets, i);
    ModesAlwaysFit(states, steps, maxPackets, i);
    MarksAlwaysFit(states, steps, maxPackets, i);
    assert Enabled(states[i], steps[i]) && states[i + 1] == Next(states[i], steps[i]);
    hide IsRun;
    StepMode(states[i], steps[i]);
    StepMarks(states[i], steps[i]);
    if 0 <= FirstDrained(states, steps, i) { RoundExtends(states, FirstDrained(states, steps, i), i + 1); }
  }

  // ---- The gain cycle ----

  // The time of the event that began the current phase: the latest that entered PROBE_BW or changed the offset.
  function PhaseStart(states: seq<Core>, steps: seq<Step>, i: nat): int
    requires i <= |steps| < |states|
  {
    if i == 0 then 0
    else if steps[i - 1].Congestion?
            && (states[i - 1].gains.mode != ProbeBw || states[i].gains.offset != states[i - 1].gains.offset)
    then steps[i - 1].f.time
    else PhaseStart(states, steps, i - 1)
  }

  // What the cycling stage does to a phase.
  lemma StageCycles(m: Core, f: Facts)
    requires m.gains.mode == ProbeBw && 0 <= m.gains.offset < 8
    ensures var g := GainCycled(m, f);
            var target, probed := Target(m, f.bandwidth, f.rttMin, 1.0), Target(m, f.bandwidth, f.rttMin, m.gains.pacing);
            var advances := || (m.gains.pacing < 1.0 && m.inFlight <= target)
                            || (f.time > m.gains.cycleStart + MinRtt(m, f.rttMin)
                                && !(m.gains.pacing > 1.0 && !f.hasLosses && f.priorInFlight < probed));
            if !advances then g == m.gains
            else
              && g.offset == (m.gains.offset + 1) % 8 && g.offset != m.gains.offset && g.cycleStart == f.time
              && g.pacing == var gain := if g.offset == 0 then 1.25 else if g.offset == 1 then 0.75 else 1.0;
                             if m.config.drainToTarget && m.gains.pacing < 1.0 && gain == 1.0 && m.inFlight > target
                             then m.gains.pacing else gain
  {
    hide Target, MinRtt;
  }

  // The rest of the event leaves a phase alone, or begins one.
  lemma EventKeepsPhase(c: Core, f: Facts, maxAckHeight: int)
    requires CanPace(Modelled(c, f), f) && ModeFits(c) && AfterFacts(c, f, maxAckHeight).gains.mode == ProbeBw
    ensures var m, r := Measured(c, f), AfterFacts(c, f, maxAckHeight);
            && m.gains == c.gains && m.config == c.config && m.inFlight == f.inFlight
            && r.rtt.min == m.rtt.min && r.sizes == m.sizes
            && if c.gains.mode == ProbeBw then r.gains == GainCycled(m, f) else r.gains.cycleStart == f.time
  {
    MeasuringKeeps(c, f);
    CyclingKeepsModes(Measured(c, f), f);
    MovedPhase(c, f);
    MovingKeepsProbe(c, f);
    ModelKeepsPhase(c, f);
    hide Measured, Moved, Modelled, PacingUpdated, WindowUpdated, RecoveryWindowUpdated, RoundClosed, CanPace, GainCycled;
  }

  lemma MovedPhase(c: Core, f: Facts)
    requires ModeFits(c)
    ensures var m, r := Measured(c, f), Moved(c, f);
            && r.rtt == m.rtt && r.sizes == m.sizes
            && (r.gains.mode == ProbeBw ==> if c.gains.mode == ProbeBw then r.gains == GainCycled(m, f) else r.gains.cycleStart == f.time)
  {
    MeasuringKeeps(c, f);
    CyclingKeepsModes(Measured(c, f), f);
    hide Measured, GainCycled, FullBandwidthChecked, Target, CycleStart, MinRttExpires;
  }

  lemma ModelKeepsPhase(c: Core, f: Facts)
    ensures var m, r := Moved(c, f), Modelled(c, f);
            && r.rtt.min == m.rtt.min && r.sizes == m.sizes
            && (r.gains.mode == ProbeBw ==> if m.gains.mode == ProbeBw then r.gains == m.gains else r.gains.cycleStart == f.time)
  {
    hide Moved, ProbeServed, IsRoundStart, CycleStart;
  }

  // What an event does to a phase.
  lemma StepCycle(c: Core, step: Step)
    requires Enabled(c, step) && ModeFits(c) && step.Congestion? && Next(c, step).gains.mode == ProbeBw
    ensures var f, r := step.f, Next(c, step);
            if c.gains.mode != ProbeBw then r.gains.cycleStart == f.time
            else
              var target, probed := Target(r, f.bandwidth, f.rttMin, 1.0), Target(r, f.bandwidth, f.rttMin, c.gains.pacing);
              var advances := || (c.gains.pacing < 1.0 && f.inFlight <= target)
                              || (f.time > c.gains.cycleStart + MinRtt(r, f.rttMin)
                                  && !(c.gains.pacing > 1.0 && !f.hasLosses && f.priorInFlight < probed));
              if !advances then r.gains == c.gains
              else
                && r.gains.offset == (c.gains.offset + 1) % 8 && r.gains.offset != c.gains.offset && r.gains.cycleStart == f.time
                && r.gains.pacing == var gain := if r.gains.offset == 0 then 1.25 else if r.gains.offset == 1 then 0.75 else 1.0;
                                     if c.config.drainToTarget && c.gains.pacing < 1.0 && gain == 1.0 && f.inFlight > target
                                     then c.gains.pacing else gain
  {
    var f, r, m := step.f, Next(c, step), Measured(c, step.f);
    EventKeepsPhase(c, f, step.maxAckHeight);
    if c.gains.mode == ProbeBw {
      StageCycles(m, f);
      TargetReads(m, r, f.bandwidth, f.rttMin, 1.0);
      TargetReads(m, r, f.bandwidth, f.rttMin, c.gains.pacing);
    }
    hide AfterFacts, Modelled, CanPace, Measured, GainCycled, Target;
  }

  lemma {:induction false} CycleStartIsPhaseStart(states: seq<Core>, steps: seq<Step>, maxPackets: int, i: nat)
    requires IsRun(states, steps) && IsStart(states[0], maxPackets) && i < |states| && states[i].gains.mode == ProbeBw
    ensures i <= |steps| < |states| && states[i].gains.cycleStart == PhaseStart(states, steps, i)
  {
    hide Next, Enabled, IsStart;
    if i == 0 {
      assert false by { StartsInStartup(states[0], maxPackets); }
    }
    var c, step := states[i - 1], steps[i - 1];
    assert Enabled(c, step) && states[i] == Next(c, step);
    ModesAlwaysFit(states, steps, maxPackets, i - 1);
    if c.gains.mode == ProbeBw { CycleStartIsPhaseStart(states, steps, maxPackets, i - 1); }
    hide IsRun;
    if step.Congestion? {
      StepCycle(c, step);
      hide Target, MinRtt;
    } else {
      OtherStepsKeepGains(c, step);
    }
  }

  lemma OtherStepsKeepGains(c: Core, step: Step)
    requires Enabled(c, step) && !step.Congestion?
    ensures Next(c, step).gains == c.gains && Next(c, step).growth == c.growth
  {
    hide SizesRescaled, CanPace;
  }

  // A phase of the gain cycle ends exactly when the low gain has drained what is in flight to the target, or when it has
  // lasted more than a round trip and is not the high gain still short of losses and of its own target. The next phase
  // then paces at 1.25, 0.75 or six times 1.0, in this order, but keeps the low gain until drained when the profile says so.
  lemma PhasesEndExactly(states: seq<Core>, steps: seq<Step>, maxPackets: int, i: nat)
    requires IsRun(states, steps) && IsStart(states[0], maxPackets) && i < |steps| && steps[i].Congestion?
    requires states[i].gains.mode == ProbeBw && |states| == |steps| + 1 && states[i + 1].gains.mode == ProbeBw
    ensures var f, g, r := steps[i].f, states[i].gains, states[i + 1];
            var target := Target(r, f.bandwidth, f.rttMin, 1.0);
            var ends := || (g.pacing < 1.0 && f.inFlight <= target)
                        || (f.time > PhaseStart(states, steps, i) + MinRtt(r, f.rttMin)
                            && !(g.pacing > 1.0 && !f.hasLosses && f.priorInFlight < Target(r, f.bandwidth, f.rttMin, g.pacing)));
            if !ends then r.gains == g
            else
              && r.gains.offset == (g.offset + 1) % 8
              && r.gains.pacing == var gain := if r.gains.offset == 0 then 1.25 else if r.gains.offset == 1 then 0.75 else 1.0;
                                   if states[0].config.drainToTarget && g.pacing < 1.0 && gain == 1.0 && f.inFlight > target
                                   then g.pacing else gain
  {
    hide Next, Enabled, IsStart, Target, MinRtt;
    ModesAlwaysFit(states, steps, maxPackets, i);
    CycleStartIsPhaseStart(states, steps, maxPackets, i);
    assert Enabled(states[i], steps[i]) && states[i + 1] == Next(states[i], steps[i]);
    hide IsRun;
    StepCycle(states[i], steps[i]);
  }

  // ---- The end of start-up ----

  // Whether the latest event with a valid send state reported it app-limited, and whether any reported one that was not.
  function LastLimited(steps: seq<Step>, i: nat): bool
    requires i <= |steps|
  {
    if i == 0 then false
    else if steps[i - 1].Congestion? && steps[i - 1].f.sendState.isValid then steps[i - 1].f.sendState.isAppLimited
    else LastLimited(steps, i - 1)
  }

  ghost predicate SomeUnlimited(steps: seq<Step>, i: nat)
    requires i <= |steps|
  {
    exists n | 0 <= n < i :: steps[n].Congestion? && steps[n].f.sendState.isValid && !steps[n].f.sendState.isAppLimited
  }

  // The events with losses since the latest round start, and the bytes they reported lost.
  function LossesInRound(states: seq<Core>, steps: seq<Step>, i: nat): (int, int)
    requires i <= |steps| < |states|
  {
    if i == 0 || Raises(states, i - 1) then (0, 0)
    else
      var (events, bytes) := LossesInRound(states, steps, i - 1);
      if steps[i - 1].Congestion? && steps[i - 1].f.hasLosses then (events + 1, bytes + steps[i - 1].f.bytesLost) else (events, bytes)
  }

  lemma StepNotes(c: Core, step: Step)
    requires Enabled(c, step) && MarksFit(c)
    ensures var r := Next(c, step);
            var valid := step.Congestion? && step.f.sendState.isValid;
            && r.growth.lastAppLimited == (if valid then step.f.sendState.isAppLimited else c.growth.lastAppLimited)
            && r.growth.hasNoAppLimited == (c.growth.hasNoAppLimited || (valid && !step.f.sendState.isAppLimited))
            && (r.rounds.lossEvents, r.rounds.bytesLost)
               == (if r.rounds.count != c.rounds.count then (0, 0)
                   else if step.Congestion? && step.f.hasLosses
                   then (c.rounds.lossEvents + 1, c.rounds.bytesLost + step.f.bytesLost)
                   else (c.rounds.lossEvents, c.rounds.bytesLost))
  {
    if step.Congestion? {
      EventNotes(c, step.f, step.maxAckHeight);
      StepMarks(c, step);
      hide AfterFacts, Modelled, CanPace, Begun;
    } else {
      hide SizesRescaled, CanPace;
    }
  }

  lemma EventNotes(c: Core, f: Facts, maxAckHeight: int)
    requires CanPace(Modelled(c, f), f)
    ensures var r := AfterFacts(c, f, maxAckHeight);
            && r.growth.lastAppLimited == SampleNoted(c.growth, f).lastAppLimited
            && r.growth.hasNoAppLimited == SampleNoted(c.growth, f).hasNoAppLimited
            && (if IsRoundStart(c, f) then r.rounds.lossEvents == 0 && r.rounds.bytesLost == 0
                else
                  && r.rounds.lossEvents == LossesCounted(c.rounds, f).lossEvents
                  && r.rounds.bytesLost == LossesCounted(c.rounds, f).bytesLost)
  {
    MeasuringKeeps(c, f);
    BegunKeepsLosses(c, f);
    var m := Modelled(c, f);
    assert m.growth == Sampled(c, f).growth && m.rounds == Measured(c, f).rounds by {
      hide Measured, Target, GainCycled, FullBandwidthChecked, StartupOrDrainLeft, MinRttExpires, ProbeServed, CycleStart;
    }
    hide Measured, Modelled, PacingUpdated, WindowUpdated, RecoveryWindowUpdated, CanPace, GainCycled, LosesTooMuch, Grows, IsRoundStart, Begun;
  }

  lemma BegunKeepsLosses(c: Core, f: Facts)
    ensures Begun(c, f).rounds.lossEvents == c.rounds.lossEvents && Begun(c, f).rounds.bytesLost == c.rounds.bytesLost
  {
    hide StartsRound;
  }

  lemma {:induction false} NotesFollowHistory(states: seq<Core>, steps: seq<Step>, maxPackets: int, i: nat)
    requires IsRun(states, steps) && IsStart(states[0], maxPackets) && i < |states|
    ensures i <= |steps| < |states|
    ensures states[i].growth.lastAppLimited == LastLimited(steps, i)
    ensures states[i].growth.hasNoAppLimited <==> SomeUnlimited(steps, i)
    ensures (states[i].rounds.lossEvents, states[i].rounds.bytesLost) == LossesInRound(states, steps, i)
  {
    hide Next, Enabled;
    if i != 0 {
      hide IsStart;
      NotesFollowHistory(states, steps, maxPackets, i - 1);
      MarksAlwaysFit(states, steps, maxPackets, i - 1);
      assert Enabled(states[i - 1], steps[i - 1]) && states[i] == Next(states[i - 1], steps[i - 1]);
      hide IsRun;
      StepNotes(states[i - 1], steps[i - 1]);
      UnlimitedExtends(steps, i);
    }
  }

  lemma UnlimitedExtends(steps: seq<Step>, i: nat)
    requires 0 < i <= |steps|
    ensures SomeUnlimited(steps, i)
            <==> || SomeUnlimited(steps, i - 1)
                 || (steps[i - 1].Congestion? && steps[i - 1].f.sendState.isValid && !steps[i - 1].f.sendState.isAppLimited)
  {
  }

  // An event compares its estimate with the previous round's exactly when it starts a round before full bandwidth and
  // the latest valid send state is not app-limited.
  lemma ComparesExactly(states: seq<Core>, steps: seq<Step>, maxPackets: int, i: nat)
    requires IsRun(states, steps) && IsStart(states[0], maxPackets) && i < |steps|
    ensures |states| == |steps| + 1
    ensures Compares(states[i], steps[i]) <==> Raises(states, i) && !states[i].growth.full && !LastLimited(steps, i + 1)
  {
    hide Next, Enabled, IsStart;
    MarksAlwaysFit(states, steps, maxPackets, i);
    NotesFollowHistory(states, steps, maxPackets, i + 1);
    assert Enabled(states[i], steps[i]) && states[i + 1] == Next(states[i], steps[i]);
    hide IsRun;
    StepMarks(states[i], steps[i]);
    StepNotes(states[i], steps[i]);
    if steps[i].Congestion? { MeasuringKeeps(states[i], steps[i].f); }
    hide Measured, LastLimited, SomeUnlimited, LossesInRound, IsRoundStart;
  }

  // Start-up ends exactly at a comparison that finds less than 1.25 times the bandwidth, rounded down, when it is the
  // profile's last allowed one in a row, or when the round lost too much: at least eight events with losses, and more
  // than one fiftieth of what was in flight when the packet acknowledged last was sent.
  lemma StartupEndsExactly(states: seq<Core>, steps: seq<Step>, maxPackets: int, i: nat)
    requires IsRun(states, steps) && IsStart(states[0], maxPackets) && i < |steps| && !states[i].growth.full
    ensures |states| == |steps| + 1
    ensures var g, step := states[i].growth, steps[i];
            var compares := Raises(states, i) && !LastLimited(steps, i + 1);
            var grows := step.Congestion? && 4 * step.f.bandwidth + 3 >= 5 * g.bandwidthAtLastRound;
            var (events, bytes) := LossesInRound(states, steps, i);
            var lossy := step.Congestion? && step.f.hasLosses;
            var lost := bytes + if lossy then step.f.bytesLost else 0;
            && (states[i + 1].growth.full
                <==> && compares && !grows
                     && (|| g.roundsWithoutGain + 1 >= states[0].config.numStartupRtts
                         || (8 <= events + (if lossy then 1 else 0) && step.f.sendState.isValid && 0 < step.f.sendState.bytesInFlight
                             && 0 < lost && 50 * lost > step.f.sendState.bytesInFlight)))
            && states[i + 1].growth.roundsWithoutGain
               == (if !compares then g.roundsWithoutGain else if grows then 0 else g.roundsWithoutGain + 1)
            && states[i + 1].growth.bandwidthAtLastRound == (if compares && grows then step.f.bandwidth else g.bandwidthAtLastRound)
  {
    hide Next, Enabled, IsStart, LastLimited, SomeUnlimited, LossesInRound, Compares;
    ComparesExactly(states, steps, maxPackets, i);
    ModesAlwaysFit(states, steps, maxPackets, i);
    NotesFollowHistory(states, steps, maxPackets, i);
    assert Enabled(states[i], steps[i]) && states[i + 1] == Next(states[i], steps[i]);
    hide IsRun;
    var step := steps[i];
    StepGrowth(states[i], step);
    OnlyEventsCompare(states[i], step);
    if step.Congestion? {
      GrowsExactly(states[i].growth, step.f.bandwidth);
      LosesExactly(states[i], step.f);
    }
    hide Grows, LosesTooMuch, Measured;
  }

  lemma OnlyEventsCompare(c: Core, step: Step)
    ensures Compares(c, step) ==> step.Congestion?
  {
    hide Measured;
  }

  lemma GrowsExactly(g: Growth, bandwidth: int)
    ensures Grows(g, bandwidth) <==> 4 * bandwidth + 3 >= 5 * g.bandwidthAtLastRound
  {
    var last := g.bandwidthAtLastRound;
    assert STARTUP_GROWTH_TARGET * (last as real) == (5 * last) as real / 4.0;
    var x := (5 * last) as real / 4.0;
    assert x.Floor as real <= x < x.Floor as real + 1.0;
    assert 4 * x.Floor <= 5 * last < 4 * x.Floor + 4;
  }

  lemma LosesExactly(c: Core, f: Facts)
    ensures var lost := c.rounds.bytesLost + if f.hasLosses then f.bytesLost else 0;
            LosesTooMuch(Measured(c, f).rounds, f)
            <==> && 8 <= c.rounds.lossEvents + (if f.hasLosses then 1 else 0)
                 && f.sendState.isValid && 0 < f.sendState.bytesInFlight && 0 < lost && 50 * lost > f.sendState.bytesInFlight
  {
    MeasuringKeeps(c, f);
    BegunKeepsLosses(c, f);
    FiftiethRoundedDown(f.sendState.bytesInFlight);
    hide Measured, Begun, Scale;
  }

  lemma FiftiethRoundedDown(x: int)
    ensures 50 * Scale(LOSS_THRESHOLD, x) <= x < 50 * Scale(LOSS_THRESHOLD, x) + 50
  {
    var y := LOSS_THRESHOLD * (x as real);
    assert y == x as real / 50.0;
    assert y.Floor as real <= y < y.Floor as real + 1.0;
  }
}
