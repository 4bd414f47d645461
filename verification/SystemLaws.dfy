// What holds of the whole sender in every run: it behaves as the sender machine on its own, its estimates are
// whole rates, start-up ends, and it never waits on a pacing deadline that has passed.
module SystemLaws {
  import opened AckHeights
  import opened Pacers
  import opened Rates
  import opened SamplerStates
  import opened SenderStates
  import opened SystemRuns
  import opened WindowedFilters
  import S = SamplerRuns
  import H = SamplerHistory
  import C = SenderRuns
  import R = SenderRounds

  // ---- Whole rates ----

  // Every bandwidth sample is a multiple of 8 bits per second, and below the infinite rate.
  lemma SamplesAreWholeRates(s: Sampler, ackTime: int, packetNumber: int)
    ensures var b := AckSample(s, ackTime, packetNumber).bandwidth; 0 <= b < INF_BANDWIDTH && b % 8 == 0
  {
    hide A0, BandwidthFromDelta;
  }

  lemma {:induction false} EventSampleIsWholeRate(s: Sampler, ackTime: int, acked: seq<AckedPacket>)
    ensures var b := AfterAcks(s, ackTime, acked).event.maxBandwidth; 0 <= b < INF_BANDWIDTH && b % 8 == 0
  {
    if acked != [] {
      var n := |acked| - 1;
      EventSampleIsWholeRate(s, ackTime, acked[..n]);
      SamplesAreWholeRates(AfterAcks(s, ackTime, acked[..n]).sampler, ackTime, acked[n].packetNumber);
      hide AckSample, AfterAck;
    }
  }

  predicate WholeRate(e: Entry<int>) { 0 <= e.sample < INF_BANDWIDTH && e.sample % 8 == 0 }

  predicate WholeRates(f: Estimates<int>) { WholeRate(f.best) && WholeRate(f.second) && WholeRate(f.third) }

  lemma UpdateKeepsWholeRates(f: Estimates<int>, e: Entry<int>)
    requires WholeRates(f) && WholeRate(e)
    ensures WholeRates(Updated(MaxFilter, 0, f, e))
  {
    hide WholeRate, Age, MaxFilter;
  }

  lemma EventKeepsWholeRates(s: System, e: Event)
    requires WholeRates(s.filter)
    ensures WholeRates(FilterFed(s, e))
  {
    var c := SamplerStates.Congestion(e.time, e.acked, e.lost, s.filter.best.sample, INF_BANDWIDTH, RoundOf(s.core, e));
    FedSampleIsWholeRate(SamplerNotified(s, e), c);
    UpdateKeepsWholeRates(s.filter, Entry(SamplerFed(s, e).1.maxBandwidth, RoundOf(s.core, e)));
    hide AfterCongestion, SamplerNotified, Updated, RoundOf, WholeRates;
  }

  lemma FedSampleIsWholeRate(s: Sampler, c: SamplerStates.Congestion)
    ensures var b := AfterCongestion(s, c).1.maxBandwidth; 0 <= b < INF_BANDWIDTH && b % 8 == 0
  {
    EventSampleIsWholeRate(AfterLosses(s, c.lost).0, c.time, c.acked);
    hide AfterLosses, AfterAcks, AfterEventEnd, EndBandwidth, LastState;
  }

  // ---- Times and totals ----

  ghost predicate SentBy(s: Sampler, now: int) {
    forall k | k in s.packets.live :: 0 <= s.packets.live[k].size && s.packets.live[k].sentTime <= now
  }

  // Acknowledging only adds to the total, and reports no RTT of zero or less.
  lemma {:induction false} AcksOnlyAdd(s: Sampler, ackTime: int, acked: seq<AckedPacket>)
    requires SentBy(s, ackTime)
    ensures var t := AfterAcks(s, ackTime, acked);
            t.sampler.packets == s.packets && s.totalBytesAcked <= t.sampler.totalBytesAcked && 0 < t.event.rtt
  {
    if acked != [] {
      var n := |acked| - 1;
      AcksOnlyAdd(s, ackTime, acked[..n]);
      var t := AfterAcks(s, ackTime, acked[..n]);
      AckOnlyAdds(t.sampler, ackTime, acked[n].packetNumber);
      hide AckSample, AfterAck, SentBy;
    }
  }

  lemma AckOnlyAdds(s: Sampler, ackTime: int, packetNumber: int)
    requires SentBy(s, ackTime)
    ensures AfterAck(s, ackTime, packetNumber).packets == s.packets
    ensures s.totalBytesAcked <= AfterAck(s, ackTime, packetNumber).totalBytesAcked
    ensures 0 <= AckSample(s, ackTime, packetNumber).rtt
  {
    hide A0, BandwidthFromDelta, DroppedByChoice;
  }

  lemma {:induction false} LossesKeepPackets(s: Sampler, lost: seq<LostPacket>)
    ensures var r := AfterLosses(s, lost).0; r.packets == s.packets && r.totalBytesAcked == s.totalBytesAcked
  {
    if lost != [] { LossesKeepPackets(s, lost[..|lost| - 1]); }
  }

  lemma CongestionOnlyAdds(s: Sampler, c: SamplerStates.Congestion)
    requires SentBy(s, c.time)
    ensures var (r, sample) := AfterCongestion(s, c);
            r.packets == s.packets && s.totalBytesAcked <= r.totalBytesAcked && 0 < sample.rtt
  {
    LossesKeepPackets(s, c.lost);
    var s1 := AfterLosses(s, c.lost).0;
    AcksOnlyAdd(s1, c.time, c.acked);
    var t := AfterAcks(s1, c.time, c.acked);
    EndKeepsPackets(t.sampler, EndBandwidth(s1, t, c), t.event.maxBandwidth > c.maxBandwidth, c.round);
    hide AfterLosses, AfterAcks, AfterEventEnd, EndBandwidth, LastState;
  }

  lemma EndKeepsPackets(s: Sampler, bandwidth: int, isNewMax: bool, round: int)
    ensures var r := AfterEventEnd(s, bandwidth, isNewMax, round).0;
            r.packets == s.packets && r.totalBytesAcked == s.totalBytesAcked
  {
    hide Observed;
  }

  lemma FactsAreReal(s: System, e: Event)
    requires SentBy(s.sampler, e.time)
    ensures var f := FactsOf(s, e);
            0 <= f.bytesAcked && 0 < f.rtt && f.time == e.time && f.lastAcked == LastAcked(e)
            && f.bandwidth == FilterFed(s, e).best.sample
    ensures SamplerSettled(s, e).packets == s.sampler.packets
  {
    var c := SamplerStates.Congestion(e.time, e.acked, e.lost, s.filter.best.sample, INF_BANDWIDTH, RoundOf(s.core, e));
    assert SamplerNotified(s, e).packets == s.sampler.packets && SamplerNotified(s, e).totalBytesAcked == s.sampler.totalBytesAcked;
    CongestionOnlyAdds(SamplerNotified(s, e), c);
    hide AfterCongestion, SamplerNotified, RoundOf, FilterFed, ExpiresHeights, ProbesRtt;
  }

  // ---- Every run of the whole is a run of the sender ----

  predicate Sound(s: System) {
    && WholeRates(s.filter) && s.pacer.Valid() && s.core.sizes.datagram <= s.pacer.datagram
  }

  function CoreStep(s: System, step: Step): C.Step {
    match step
    case Congestion(e) => C.Congestion(FactsOf(s, e), SamplerSettled(s, e).heights.filter.best.sample.extraAcked)
    case Send(p) => C.Send(p.packetNumber, p.bytesInFlight)
    case Resize(size) => C.Resize(size)
  }

  lemma StepProjects(delay: nat, s: System, step: Step, now: int)
    requires Enabled(s, step, now) && SentBy(s.sampler, now) && Sound(s) && 0 <= now
    ensures var r := Next(delay, s, step, now);
            && C.Enabled(s.core, CoreStep(s, step)) && r.core == C.Next(s.core, CoreStep(s, step))
            && SentBy(r.sampler, TimeOf(step, now))
  {
    match step
    case Congestion(e) =>
      FactsAreReal(s, e);
      hide FactsOf, SamplerSettled, FilterFed, Modelled, CanPace, AfterFacts;
    case Send(p) =>
      SendingKeepsTimes(s.sampler, p, now);
      hide AfterSent, Pacers.AfterSend, PacerBandwidth;
    case Resize(_) => hide Resized;
  }

  lemma SendingKeepsTimes(s: Sampler, p: Sending, now: int)
    requires SentBy(s, now) && now <= p.time && 0 <= p.bytes
    ensures SentBy(AfterSent(s, p.time, p.packetNumber, p.bytes, p.bytesInFlight, p.retransmittable), p.time)
  {
  }

  lemma StepKeepsSound(delay: nat, s: System, step: Step, now: int)
    requires Enabled(s, step, now) && Sound(s) && 0 <= now
    ensures Sound(Next(delay, s, step, now))
  {
    match step
    case Congestion(e) =>
      EventKeepsWholeRates(s, e);
      C.ModelKeepsWindows(s.core, FactsOf(s, e));
      hide FactsOf, SamplerSettled, FilterFed, Modelled, CanPace, WholeRates, PacingUpdated, WindowUpdated, RecoveryWindowUpdated;
    case Send(p) =>
      hide AfterSent, PacerBandwidth, BudgetAt, WholeRates;
    case Resize(_) => hide Rescale, WholeRates;
  }

  ghost predicate Projects(states: seq<System>, steps: seq<Step>, i: nat, cores: seq<Core>, coreSteps: seq<C.Step>) {
    && i <= |steps| < |states| && |cores| == i + 1 && |coreSteps| == i
    && (forall n | 0 <= n <= i :: cores[n] == states[n].core)
    && (forall n | 0 <= n < i :: coreSteps[n] == CoreStep(states[n], steps[n]))
  }

  // The sender inside a run of the whole makes exactly a run of the sender machine, whatever invariant of that
  // machine is asked for; along it the clock, the filter and the pacer stay sound.
  lemma {:induction false} RunProjectsToCore(delay: nat, states: seq<System>, steps: seq<Step>, maxPackets: int, i: nat)
    returns (cores: seq<Core>, coreSteps: seq<C.Step>)
    requires IsRun(delay, states, steps) && IsStart(states[0], maxPackets) && i <= |steps|
    ensures Projects(states, steps, i, cores, coreSteps)
    ensures C.IsRun(cores, coreSteps) && C.IsStart(cores[0], maxPackets)
    ensures Sound(states[i]) && SentBy(states[i].sampler, Now(steps, i)) && 0 <= Now(steps, i)
  {
    if i == 0 {
      cores, coreSteps := [states[0].core], [];
      StartIsSound(states[0], maxPackets);
    } else {
      hide Next, Enabled, C.Next, C.Enabled, CoreStep, IsStart, C.IsStart, Sound, SentBy, C.IsRun, Projects, TimeOf;
      cores, coreSteps := RunProjectsToCore(delay, states, steps, maxPackets, i - 1);
      var s, step, now := states[i - 1], steps[i - 1], Now(steps, i - 1);
      assert Enabled(s, step, now) && states[i] == Next(delay, s, step, now);
      hide IsRun;
      StepProjects(delay, s, step, now);
      StepKeepsSound(delay, s, step, now);
      TimeIsNatural(s, step, now);
      ExtendProjection(states, steps, i, cores, coreSteps);
      ExtendRun(cores, coreSteps, states[i].core, CoreStep(s, step));
      cores, coreSteps := cores + [states[i].core], coreSteps + [CoreStep(s, step)];
    }
  }

  lemma TimeIsNatural(s: System, step: Step, now: int)
    requires Enabled(s, step, now) && 0 <= now
    ensures 0 <= TimeOf(step, now)
  {
    hide CanHandle;
  }

  lemma ExtendProjection(states: seq<System>, steps: seq<Step>, i: nat, cores: seq<Core>, coreSteps: seq<C.Step>)
    requires 0 < i <= |steps| < |states| && Projects(states, steps, i - 1, cores, coreSteps)
    ensures |cores| == i && |coreSteps| == i - 1 && cores[i - 1] == states[i - 1].core
    ensures Projects(states, steps, i, cores + [states[i].core], coreSteps + [CoreStep(states[i - 1], steps[i - 1])])
  {
    hide CoreStep;
  }

  lemma ExtendRun(cores: seq<Core>, coreSteps: seq<C.Step>, core: Core, step: C.Step)
    requires C.IsRun(cores, coreSteps)
    requires C.Enabled(cores[|coreSteps|], step) && core == C.Next(cores[|coreSteps|], step)
    ensures C.IsRun(cores + [core], coreSteps + [step])
  {
    hide C.Next, C.Enabled;
    var all, allSteps := cores + [core], coreSteps + [step];
    forall i | 0 <= i < |allSteps|
      ensures C.Enabled(all[i], allSteps[i]) && all[i + 1] == C.Next(all[i], allSteps[i])
    {
      if i < |coreSteps| { assert C.Enabled(cores[i], coreSteps[i]); }
    }
  }

  lemma StartIsSound(s: System, maxPackets: int)
    requires IsStart(s, maxPackets)
    ensures Sound(s) && SentBy(s.sampler, 0) && C.IsStart(s.core, maxPackets)
  {
  }

  // ---- Consequences for the whole ----

  // In every reachable state of the whole, the window offered lies between 4 datagrams and the maximum.
  lemma WindowIsAlwaysBounded(delay: nat, states: seq<System>, steps: seq<Step>, maxPackets: int, i: nat)
    requires IsRun(delay, states, steps) && IsStart(states[0], maxPackets) && i <= |steps|
    ensures var c := states[i].core;
            MIN_WINDOW_PACKETS * c.sizes.datagram <= CongestionWindow(c) <= maxPackets * c.sizes.datagram
  {
    var cores, coreSteps := RunProjectsToCore(delay, states, steps, maxPackets, i);
    C.WindowsStayBounded(cores, coreSteps, maxPackets, i);
  }

  // In every run an event that reports a packet is handled, without a panic, unless it corrects an overshoot while the
  // connection has no minimum RTT. So one with a minimum RTT always is, and in every profile but the conservative one.
  lemma EventsAreHandledUnlessOvershootLacksRtt(delay: nat, states: seq<System>, steps: seq<Step>, maxPackets: int, i: nat, e: Event)
    requires IsRun(delay, states, steps) && IsStart(states[0], maxPackets) && i <= |steps|
    ensures var f := FactsOf(states[i], e);
            var m := Modelled(states[i].core, f);
            CanHandle(states[i], e)
            <==> (e.acked != [] || e.lost != [])
                 && !(e.rttMin == 0 && C.CorrectsOvershoot(states[i].core, f, m.gains.mode, m.growth.full))
    ensures (e.acked != [] || e.lost != []) && (0 < e.rttMin || states[0].core.config != ConfigFor(Conservative)) ==>
              CanHandle(states[i], e)
  {
    var cores, coreSteps := RunProjectsToCore(delay, states, steps, maxPackets, i);
    hide IsRun, IsStart, Sound, SentBy, C.IsRun, C.IsStart, Modelled, CanPace, C.CorrectsOvershoot, ConfigFor, CoreStep;
    C.PacingPanicsExactlyOnOvershootWithoutRtt(cores, coreSteps, maxPackets, i, FactsOf(states[i], e));
    KeepsMinimumRtt(states[i], e);
    hide FactsOf;
  }

  lemma KeepsMinimumRtt(s: System, e: Event)
    ensures FactsOf(s, e).rttMin == e.rttMin
  {
    hide SamplerFed, FilterFed;
  }

  // What runs assume can be met: one packet, sent and acknowledged.
  lemma RunsWithSendsExist(delay: nat, maxPackets: int, packetBuffer: int) returns (states: seq<System>, steps: seq<Step>)
    requires INITIAL_WINDOW_PACKETS <= maxPackets
    ensures IsRun(delay, states, steps) && IsStart(states[0], maxPackets) && states[0].core.config == ConfigFor(Standard)
    ensures |steps| == 1 && Now(steps, 1) == 1 && states[1].core.lastSent == 0
  {
    var s := NewSystem(ConfigFor(Standard), 1200, maxPackets, packetBuffer, 1200);
    steps := [Step.Send(Sending(1, 0, 0, 1200, true, 0))];
    assert Now(steps, 0) == 0 && Enabled(s, steps[0], 0);
    states := [s, Next(delay, s, steps[0], 0)];
    hide AfterSent, Pacers.AfterSend, PacerBandwidth;
  }

  lemma {:induction false} ClockIsKept(steps: seq<Step>, step: Step, i: nat)
    requires i <= |steps|
    ensures Now(steps + [step], i) == Now(steps, i)
  {
    if i != 0 { ClockIsKept(steps, step, i - 1); }
  }

  lemma ExtendSystemRun(delay: nat, states: seq<System>, steps: seq<Step>, step: Step)
    requires IsRun(delay, states, steps) && Enabled(states[|steps|], step, Now(steps, |steps|))
    ensures IsRun(delay, states + [Next(delay, states[|steps|], step, Now(steps, |steps|))], steps + [step])
  {
    hide Next, Enabled, Now;
    var r := Next(delay, states[|steps|], step, Now(steps, |steps|));
    var all, allSteps := states + [r], steps + [step];
    forall i | 0 <= i < |allSteps|
      ensures Enabled(all[i], allSteps[i], Now(allSteps, i)) && all[i + 1] == Next(delay, all[i], allSteps[i], Now(allSteps, i))
    {
      ClockIsKept(steps, step, i);
      if i < |steps| { assert Enabled(states[i], steps[i], Now(steps, i)); }
    }
  }

  lemma RunsWithEventsExist(delay: nat, maxPackets: int, packetBuffer: int) returns (states: seq<System>, steps: seq<Step>)
    requires INITIAL_WINDOW_PACKETS <= maxPackets
    ensures IsRun(delay, states, steps) && IsStart(states[0], maxPackets)
    ensures |steps| == 2 && steps[1].Congestion? && steps[1].e.acked != []
  {
    states, steps := RunsWithSendsExist(delay, maxPackets, packetBuffer);
    var e := Event(1200, 2, [AckedPacket(0, 1200)], [], 0, 0);
    EventsAreHandledUnlessOvershootLacksRtt(delay, states, steps, maxPackets, 1, e);
    hide IsRun, IsStart, CanHandle, Next, ConfigFor;
    assert ConfigFor(Standard) != ConfigFor(Conservative) by { StandardIsNotConservative(); }
    assert Enabled(states[1], Step.Congestion(e), 1);
    ExtendSystemRun(delay, states, steps, Step.Congestion(e));
    states, steps := states + [Next(delay, states[1], Step.Congestion(e), 1)], steps + [Step.Congestion(e)];
  }

  lemma StandardIsNotConservative()
    ensures ConfigFor(Standard) != ConfigFor(Conservative)
  {
  }

  predicate Compares(s: System, step: Step) { R.Compares(s.core, CoreStep(s, step)) }

  function Comparisons(states: seq<System>, steps: seq<Step>, k: nat): nat
    requires k <= |steps| < |states|
  {
    if k == 0 then 0 else Comparisons(states, steps, k - 1) + if Compares(states[k - 1], steps[k - 1]) then 1 else 0
  }

  lemma {:induction false} ComparisonsProject(states: seq<System>, steps: seq<Step>, i: nat, cores: seq<Core>,
                                              coreSteps: seq<C.Step>, k: nat)
    requires Projects(states, steps, i, cores, coreSteps) && k <= i
    ensures Comparisons(states, steps, k) == R.Comparisons(cores, coreSteps, k)
  {
    hide R.Compares, CoreStep;
    if k != 0 { ComparisonsProject(states, steps, i, cores, coreSteps, k - 1); }
  }

  lemma MultipleIsAtLeastEight(x: int)
    requires 0 < x && x % 8 == 0
    ensures 8 <= x
  {
  }

  // Start-up of the whole sender ends: as long as the estimates compared are non-zero and at most the bound, and
  // 8 * 1.25^n exceeds the bound, full bandwidth is reached within n * numStartupRtts + 1 comparisons.
  lemma StartupAlwaysEnds(delay: nat, states: seq<System>, steps: seq<Step>, maxPackets: int, k: nat, bound: nat, n: nat)
    requires IsRun(delay, states, steps) && IsStart(states[0], maxPackets) && k <= |steps|
    requires forall i | 0 <= i < k && steps[i].Congestion? && Compares(states[i], steps[i]) ::
               0 < FactsOf(states[i], steps[i].e).bandwidth <= bound
    requires bound * R.Power(4, n) < 8 * R.Power(5, n)
    requires Comparisons(states, steps, k) > n * states[0].core.config.numStartupRtts
    ensures states[k].core.growth.full
  {
    hide C.Next, C.Enabled, C.IsStart, C.IsRun, R.Power, CoreStep, IsStart, IsRun, FactsOf, Sound, SentBy, R.Compares, Comparisons,
         R.Comparisons;
    var cores, coreSteps := RunProjectsToCore(delay, states, steps, maxPackets, k);
    ComparisonsProject(states, steps, k, cores, coreSteps, k);
    assert cores[0] == states[0].core && cores[k] == states[k].core;
    forall i | 0 <= i < k && R.Compares(cores[i], coreSteps[i])
      ensures coreSteps[i].Congestion? && 8 <= coreSteps[i].f.bandwidth <= bound && coreSteps[i].f.bandwidth % 8 == 0
    {
      assert Compares(states[i], steps[i]);
      ComparedEstimate(delay, states, steps, maxPackets, i);
      MultipleIsAtLeastEight(FactsOf(states[i], steps[i].e).bandwidth);
    }
    hide Projects;
    assert R.EstimatesBounded(cores, coreSteps, k, bound);
    hide R.EstimatesBounded;
    R.StartupEnds(cores, coreSteps, maxPackets, k, bound, n);
  }

  // Only events compare, and what they compare is the filter's estimate, a whole rate.
  lemma ComparedEstimate(delay: nat, states: seq<System>, steps: seq<Step>, maxPackets: int, i: nat)
    requires IsRun(delay, states, steps) && IsStart(states[0], maxPackets) && i < |steps|
    requires Compares(states[i], steps[i])
    ensures steps[i].Congestion? && CoreStep(states[i], steps[i]).Congestion?
    ensures CoreStep(states[i], steps[i]).f == FactsOf(states[i], steps[i].e)
    ensures var b := FactsOf(states[i], steps[i].e).bandwidth; 0 <= b < INF_BANDWIDTH && b % 8 == 0
  {
    var _, _ := RunProjectsToCore(delay, states, steps, maxPackets, i);
    hide IsRun, IsStart, FactsOf, FilterFed;
    EventKeepsWholeRates(states[i], steps[i].e);
    EstimateIsBest(states[i], steps[i].e);
  }

  lemma EstimateIsBest(s: System, e: Event)
    ensures FactsOf(s, e).bandwidth == FilterFed(s, e).best.sample
  {
    hide FilterFed, SamplerFed;
  }

  // ---- Pacing ----

  // seedPacketSize: what the sender starts with never exceeds what the address allows.
  function SeedPacketSize(quicSize: int, byAddr: int): int { if quicSize <= 0 then byAddr else Min(quicSize, byAddr) }

  // The minimum RTT is never negative, so the pacing rate is always defined.
  lemma MinRttIsNatural(delay: nat, states: seq<System>, steps: seq<Step>, maxPackets: int, i: nat)
    requires IsRun(delay, states, steps) && IsStart(states[0], maxPackets) && i <= |steps|
    ensures 0 <= states[i].core.rtt.min
  {
    var cores, coreSteps := RunProjectsToCore(delay, states, steps, maxPackets, i);
    R.MinRttIsMinimumSinceExpiry(cores, coreSteps, maxPackets, i);
  }

  // When the sender says it may send, or the deadline it gave has come, it has the budget, at any bandwidth the
  // pacer is asked about both times.
  lemma NoPacingLivelock(delay: nat, states: seq<System>, steps: seq<Step>, maxPackets: int, i: nat, rttMin: nat, now: int)
    requires IsRun(delay, states, steps) && IsStart(states[0], maxPackets) && i <= |steps|
    ensures states[i].pacer.Valid() && 0 <= states[i].core.rtt.min
    ensures var bandwidth := PacerBandwidth(states[i].core, rttMin);
            states[i].pacer.lastSent <= now && SendTime(delay, states[i].pacer, bandwidth) <= now ==>
              states[i].core.sizes.datagram <= BudgetAt(delay, states[i].pacer, bandwidth, now)
  {
    var _, _ := RunProjectsToCore(delay, states, steps, maxPackets, i);
    MinRttIsNatural(delay, states, steps, maxPackets, i);
    hide IsRun, IsStart, PacerBandwidth, BudgetAt, SendTime, WholeRates, SentBy;
    var bandwidth := PacerBandwidth(states[i].core, rttMin);
    if states[i].pacer.lastSent <= now && SendTime(delay, states[i].pacer, bandwidth) <= now {
      DeadlineBringsBudget(delay, states[i].pacer, bandwidth, now);
    }
  }

  // A connection built from seedPacketSize starts as these results assume.
  lemma SeededSenderStarts(profile: Profile, quicSize: int, byAddr: int, initialPacketSize: int, maxPackets: int, packetBuffer: int)
    requires 0 < byAddr <= initialPacketSize && INITIAL_WINDOW_PACKETS <= maxPackets
    ensures IsStart(NewSystem(ConfigFor(profile), SeedPacketSize(quicSize, byAddr), maxPackets, packetBuffer, initialPacketSize),
                    maxPackets)
  {
  }

  lemma RoundIsNatural(delay: nat, states: seq<System>, steps: seq<Step>, maxPackets: int, i: nat)
    requires IsRun(delay, states, steps) && IsStart(states[0], maxPackets) && i < |steps| && steps[i].Congestion?
    ensures 0 <= RoundOf(states[i].core, steps[i].e)
  {
    var cores, coreSteps := RunProjectsToCore(delay, states, steps, maxPackets, i);
    hide IsRun, IsStart, Sound, SentBy, C.Next, C.Enabled, CoreStep;
    R.MarksGrow(cores, coreSteps, maxPackets, 0, i);
  }

  // The sampler inside the whole keeps its invariant, knows its app-limited phase, and keeps its books.
  lemma SamplerLawsApply(delay: nat, states: seq<System>, steps: seq<Step>, maxPackets: int, i: nat)
    requires IsRun(delay, states, steps) && IsStart(states[0], maxPackets) && i <= |steps|
    ensures AllReport(steps, i)
    ensures var ops := SamplerOps(states, steps, i);
            && S.Good(S.CurvesOf(states[0].sampler, ops), states[i].sampler)
            && (states[i].sampler.isAppLimited <==> H.LimitedByHistory(states[0].sampler, ops))
            && H.Balanced(H.LedgerOf(states[0].sampler, ops), states[i].sampler)
            && (H.AllResolvedOnce(states[0].sampler, ops) ==> H.Credited(states[i].sampler) <= states[i].sampler.totalBytesSent)
  {
    RunProjectsToSampler(delay, states, steps, maxPackets, i);
    var s, ops := states[0].sampler, SamplerOps(states, steps, i);
    S.RunsAreGood(s, ops);
    H.PhaseIsLimitedByHistory(s, ops);
    H.BytesAreAccounted(s, ops);
    if H.AllResolvedOnce(s, ops) { H.BytesAreConserved(s, ops); }
  }
}
