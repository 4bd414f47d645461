// The ack-aggregation tracker inside the whole sender: in every run its heights are never negative, it reports zero
// extra bytes exactly when it starts an epoch, and the window follows the target plus the best height.
module SystemHeights {
  import opened AckHeights
  import opened Rates
  import opened SamplerStates
  import opened SenderStates
  import opened SystemLaws
  import opened SystemRuns
  import opened WindowedFilters
  import S = SamplerRuns
  import C = SenderRuns
  import G = HeightRuns

  // ---- The end of an event ----

  // The loop of the event, and what its end tells the tracker.
  function LoopTally(s: System, e: Event): Tally {
    AfterAcks(AfterLosses(SamplerNotified(s, e), e.lost).0, e.time, e.acked)
  }

  function Told(s: System, e: Event): SamplerStates.Congestion {
    SamplerStates.Congestion(e.time, e.acked, e.lost, s.filter.best.sample, INF_BANDWIDTH, RoundOf(s.core, e))
  }

  function Reported(s: System, e: Event): AckEvent {
    var t := LoopTally(s, e);
    AckEventOf(t.sampler, EndBandwidth(AfterLosses(SamplerNotified(s, e), e.lost).0, t, Told(s, e)),
               t.event.maxBandwidth > s.filter.best.sample, RoundOf(s.core, e))
  }

  // The event acknowledges bytes the sampler tracks.
  predicate Acknowledges(s: System, e: Event) {
    e.acked != [] && LoopTally(s, e).sampler.totalBytesAcked != s.sampler.totalBytesAcked
  }

  // What the tracker needs of a sampler between events, at time now.
  ghost predicate HeightsSound(s: Sampler, now: int) {
    && AllNatural(s.heights.filter) && 1.0 <= s.heights.threshold && s.heights.epochStart <= now
    && s.ackedAfterLastEvent == s.totalBytesAcked
  }

  // A loop leaves the tracker alone, and when it counted bytes the last of them came at its own time.
  lemma {:induction false} AcksKeepHeights(s: Sampler, time: int, acked: seq<AckedPacket>)
    ensures var t := AfterAcks(s, time, acked);
            && t.sampler.heights == s.heights && t.sampler.ackedAfterLastEvent == s.ackedAfterLastEvent
            && t.sampler.overestimateAvoidance == s.overestimateAvoidance
            && (t.sampler.totalBytesAcked == s.totalBytesAcked || t.sampler.lastAckedAckTime == time)
  {
    if acked != [] {
      var n := |acked| - 1;
      AcksKeepHeights(s, time, acked[..n]);
      AckKeepsHeights(AfterAcks(s, time, acked[..n]).sampler, time, acked[n].packetNumber);
      hide AckSample, AfterAck;
    }
  }

  lemma AckKeepsHeights(s: Sampler, time: int, packetNumber: int)
    ensures var r := AfterAck(s, time, packetNumber);
            && r.heights == s.heights && r.ackedAfterLastEvent == s.ackedAfterLastEvent
            && r.overestimateAvoidance == s.overestimateAvoidance
            && (r.totalBytesAcked == s.totalBytesAcked || r.lastAckedAckTime == time)
            && (packetNumber in s.packets.live ==> r.lastAckedAckTime == time)
            && (packetNumber !in s.packets.live ==> r.lastAckedAckTime == s.lastAckedAckTime)
  {
    hide DroppedByChoice;
  }

  lemma {:induction false} LossesKeepHeights(s: Sampler, lost: seq<LostPacket>)
    ensures var r := AfterLosses(s, lost).0;
            r == s.(totalBytesLost := r.totalBytesLost)
  {
    if lost != [] { LossesKeepHeights(s, lost[..|lost| - 1]); }
  }

  // What the event does to the tracker and the candidates.
  lemma FedHeights(s: System, e: Event)
    requires s.sampler.ackedAfterLastEvent == s.sampler.totalBytesAcked
    ensures var t, (fed, sample) := LoopTally(s, e).sampler, SamplerFed(s, e);
            && fed.ackedAfterLastEvent == fed.totalBytesAcked
            && if Acknowledges(s, e) then
                 && (fed.heights, sample.extraAcked) == Observed(s.sampler.heights, Reported(s, e))
                 && fed.candidates == t.candidates + if s.sampler.overestimateAvoidance && sample.extraAcked == 0
                                                     then [t.recent.LessRecent()] else []
               else fed.heights == s.sampler.heights && sample.extraAcked == 0 && fed.candidates == t.candidates
  {
    var s0 := SamplerNotified(s, e);
    assert s0.heights == s.sampler.heights && s0.ackedAfterLastEvent == s.sampler.ackedAfterLastEvent
           && s0.totalBytesAcked == s.sampler.totalBytesAcked && s0.overestimateAvoidance == s.sampler.overestimateAvoidance;
    LossesKeepHeights(s0, e.lost);
    AcksKeepHeights(AfterLosses(s0, e.lost).0, e.time, e.acked);
    hide SamplerNotified, AfterLosses, EndBandwidth, Observed, RoundOf, LastState;
    if e.acked != [] { hide AfterAcks; }
  }

  // What the event reports meets what the tracker needs.
  lemma ReportedIsSound(s: System, e: Event, now: int)
    requires HeightsSound(s.sampler, now) && now <= e.time && SentBy(s.sampler, e.time) && 0 <= s.filter.best.sample
    requires Acknowledges(s, e)
    ensures var ack := Reported(s, e); ack.time == e.time && 0 < ack.bytes && 0 <= ack.bandwidth
  {
    var s0 := SamplerNotified(s, e);
    assert s0.ackedAfterLastEvent == s.sampler.ackedAfterLastEvent && s0.packets == s.sampler.packets
           && s0.totalBytesAcked == s.sampler.totalBytesAcked;
    LossesKeepHeights(s0, e.lost);
    var s1 := AfterLosses(s0, e.lost).0;
    AcksKeepHeights(s1, e.time, e.acked);
    AcksOnlyAdd(s1, e.time, e.acked);
    hide SamplerNotified, AfterLosses, AfterAcks, RoundOf;
  }

  // An event of a sound state reports no negative extra bytes, zero exactly when it starts an epoch, if it
  // acknowledges anything; and it saves a candidate exactly then.
  ghost predicate MarksEpoch(s: System, e: Event) {
    var t, (fed, sample) := LoopTally(s, e).sampler, SamplerFed(s, e);
    var starts := Acknowledges(s, e) && StartsEpoch(s.sampler.heights, Reported(s, e));
    && 0 <= sample.extraAcked
    && (sample.extraAcked == 0 <==> starts || !Acknowledges(s, e))
    && fed.heights.epochs == s.sampler.heights.epochs + (if starts then 1 else 0)
    && fed.candidates == t.candidates + if s.sampler.overestimateAvoidance && starts then [t.recent.LessRecent()] else []
  }

  lemma EventKeepsHeightsSound(s: System, e: Event, now: int)
    requires HeightsSound(s.sampler, now) && now <= e.time && SentBy(s.sampler, e.time) && 0 <= s.filter.best.sample
    ensures MarksEpoch(s, e) && HeightsSound(SamplerFed(s, e).0, e.time)
    ensures Acknowledges(s, e) && !StartsEpoch(s.sampler.heights, Reported(s, e)) ==> 0 < NewEvent(s.sampler.heights, Reported(s, e)).extraAcked
  {
    FedHeights(s, e);
    hide SamplerFed, LoopTally, SentBy, Acknowledges;
    if Acknowledges(s, e) {
      ReportedIsSound(s, e, now);
      ZeroExtraMarksNewEpoch(s.sampler.heights, Reported(s, e));
      HeightsStayNatural(s.sampler.heights, Reported(s, e));
      ObservingKeepsSettings(s.sampler.heights, Reported(s, e));
      hide Reported, Observed, StartsEpoch, NewEvent, AllNatural;
    }
  }

  lemma ObservingKeepsSettings(h: Heights, ack: AckEvent)
    ensures var r := Observed(h, ack).0;
            r.threshold == h.threshold && r.reduceOnIncrease == h.reduceOnIncrease && (r.epochStart == h.epochStart || r.epochStart == ack.time)
  {
    hide Reduced, StartsEpoch, NewEvent;
  }

  // ---- Runs ----

  lemma SettlingKeepsHeightsSound(s: System, e: Event)
    requires HeightsSound(SamplerFed(s, e).0, e.time)
    ensures HeightsSound(SamplerSettled(s, e), e.time)
  {
    hide SamplerFed, FactsOf, ExpiresHeights, ProbesRtt, RoundOf;
  }

  lemma StepKeepsHeightsSound(delay: nat, s: System, step: Step, now: int)
    requires Enabled(s, step, now) && SentBy(s.sampler, now) && Sound(s) && HeightsSound(s.sampler, now)
    ensures HeightsSound(Next(delay, s, step, now).sampler, TimeOf(step, now))
    ensures step.Congestion? ==> MarksEpoch(s, step.e)
  {
    match step
    case Congestion(e) =>
      assert SentBy(s.sampler, e.time);
      EventKeepsHeightsSound(s, e, now);
      SettlingKeepsHeightsSound(s, e);
      hide FactsOf, SamplerSettled, FilterFed, Modelled, CanPace, AfterFacts, MarksEpoch, AllNatural;
    case Send(p) =>
      hide Pacers.AfterSend, PacerBandwidth, AllNatural, Reopened, Accepts;
    case Resize(_) => hide Resized;
  }

  // In every state of every run the heights are not negative, the last epoch began no later than now, and nothing
  // is waiting to be reported.
  lemma {:induction false} HeightsAreAlwaysSound(delay: nat, states: seq<System>, steps: seq<Step>, maxPackets: int, i: nat)
    requires IsRun(delay, states, steps) && IsStart(states[0], maxPackets) && i <= |steps|
    ensures HeightsSound(states[i].sampler, Now(steps, i))
    ensures 0 <= states[i].sampler.heights.filter.best.sample.extraAcked
  {
    hide Next, Enabled, IsStart, Sound, SentBy, TimeOf, HeightsSound, C.IsRun, C.IsStart, Projects;
    if i == 0 {
      StartsHeightsSound(states[0], maxPackets);
    } else {
      HeightsAreAlwaysSound(delay, states, steps, maxPackets, i - 1);
      var _, _ := RunProjectsToCore(delay, states, steps, maxPackets, i - 1);
      assert Enabled(states[i - 1], steps[i - 1], Now(steps, i - 1));
      assert states[i] == Next(delay, states[i - 1], steps[i - 1], Now(steps, i - 1));
      hide IsRun;
      StepKeepsHeightsSound(delay, states[i - 1], steps[i - 1], Now(steps, i - 1));
    }
    BestIsNatural(states[i].sampler, Now(steps, i));
  }

  lemma BestIsNatural(s: Sampler, now: int)
    requires HeightsSound(s, now)
    ensures 0 <= s.heights.filter.best.sample.extraAcked
  {
  }

  lemma StartsHeightsSound(s: System, maxPackets: int)
    requires IsStart(s, maxPackets)
    ensures HeightsSound(s.sampler, 0)
  {
    hide NewCore;
  }

  // Every event of every run reports zero extra bytes exactly when it starts an epoch or acknowledges nothing, and
  // saves a candidate exactly at the start of an epoch.
  lemma EveryEventMarksEpoch(delay: nat, states: seq<System>, steps: seq<Step>, maxPackets: int, i: nat)
    requires IsRun(delay, states, steps) && IsStart(states[0], maxPackets) && i < |steps| && steps[i].Congestion?
    ensures MarksEpoch(states[i], steps[i].e)
  {
    HeightsAreAlwaysSound(delay, states, steps, maxPackets, i);
    var _, _ := RunProjectsToCore(delay, states, steps, maxPackets, i);
    hide Next, Enabled, IsStart, Sound, SentBy, TimeOf, MarksEpoch, HeightsSound;
    assert Enabled(states[i], steps[i], Now(steps, i));
    hide IsRun;
    StepKeepsHeightsSound(delay, states[i], steps[i], Now(steps, i));
  }

  // What the window is compared with after an event.
  predicate FollowsTarget(s: System, r: System, rttMin: nat) {
    var acked := r.sampler.totalBytesAcked - s.sampler.totalBytesAcked;
    var target := Target(r.core, r.filter.best.sample, rttMin, r.core.gains.window)
                  + r.sampler.heights.filter.best.sample.extraAcked;
    && r.core.window <= target && r.core.window <= s.core.window + acked
    && (r.core.window == target || r.core.window == s.core.window + acked || r.core.window == r.core.sizes.most)
  }

  lemma SettlingKeepsTotals(s: System, e: Event)
    ensures SamplerSettled(s, e).totalBytesAcked == SamplerFed(s, e).0.totalBytesAcked
    ensures FactsOf(s, e).bytesAcked == SamplerFed(s, e).0.totalBytesAcked - s.sampler.totalBytesAcked
    ensures FactsOf(s, e).rttMin == e.rttMin
  {
    hide SamplerFed, FilterFed, ExpiresHeights, ProbesRtt, RoundOf;
  }

  lemma EventFollowsTarget(s: System, e: Event, maxPackets: int)
    requires CanHandle(s, e) && C.WindowsFit(s.core, maxPackets) && INITIAL_WINDOW_PACKETS <= maxPackets
    requires SentBy(s.sampler, e.time) && 0 <= SamplerSettled(s, e).heights.filter.best.sample.extraAcked
    ensures var r := AfterEvent(s, e); r.core.growth.full && r.core.gains.mode != ProbeRtt ==> FollowsTarget(s, r, e.rttMin)
  {
    FactsAreReal(s, e);
    SettlingKeepsTotals(s, e);
    hide FactsOf, SamplerSettled, SamplerFed, FilterFed, Modelled, CanPace, Target, AfterFacts, SentBy, C.WindowsFit;
    C.WindowFollowsTarget(s.core, FactsOf(s, e), SamplerSettled(s, e).heights.filter.best.sample.extraAcked, maxPackets);
  }

  // After every event at full bandwidth outside PROBE_RTT, the window is within the target plus the best height,
  // grew by no more than what was acknowledged, and is one of the two unless the maximum holds it.
  lemma WindowAlwaysFollowsTarget(delay: nat, states: seq<System>, steps: seq<Step>, maxPackets: int, i: nat)
    requires IsRun(delay, states, steps) && IsStart(states[0], maxPackets) && i < |steps| && steps[i].Congestion?
    requires states[i + 1].core.growth.full && states[i + 1].core.gains.mode != ProbeRtt
    ensures FollowsTarget(states[i], states[i + 1], steps[i].e.rttMin)
  {
    HeightsAreAlwaysSound(delay, states, steps, maxPackets, i + 1);
    var cores, coreSteps := RunProjectsToCore(delay, states, steps, maxPackets, i);
    C.WindowsStayBounded(cores, coreSteps, maxPackets, i);
    assert INITIAL_WINDOW_PACKETS <= maxPackets;
    hide C.WindowsFit, C.IsRun, C.IsStart, IsStart, Sound, CanPace, FactsOf, Modelled, AfterFacts, SamplerSettled, FilterFed,
         FollowsTarget, HeightsSound;
    assert Enabled(states[i], steps[i], Now(steps, i)) && states[i + 1] == Next(delay, states[i], steps[i], Now(steps, i));
    hide IsRun;
    EventFollowsTarget(states[i], steps[i].e, maxPackets);
  }

  // ---- A bandwidth increase ----

  // After an event that measures a new maximum bandwidth and starts no epoch, the best height is the largest of the
  // re-measured ones and the new one, up to round 10; in any later round the new one alone is left.
  lemma IncreaseForgetsHeights(delay: nat, states: seq<System>, steps: seq<Step>, maxPackets: int, i: nat)
    requires IsRun(delay, states, steps) && IsStart(states[0], maxPackets) && i < |steps| && steps[i].Congestion?
    requires var s, e := states[i], steps[i].e;
             && Acknowledges(s, e) && Reported(s, e).isNewMax && !StartsEpoch(s.sampler.heights, Reported(s, e))
             && s.sampler.heights.reduceOnIncrease && RoundOf(s.core, e) < U64
    ensures var h, ack := states[i].sampler.heights, Reported(states[i], steps[i].e);
            var old3 := Max(Height(Remeasured(h.filter.best.sample, ack.bandwidth)),
                            Max(Height(Remeasured(h.filter.second.sample, ack.bandwidth)),
                                Height(Remeasured(h.filter.third.sample, ack.bandwidth))));
            var event := NewEvent(h, ack).extraAcked;
            SamplerFed(states[i], steps[i].e).0.heights.filter.best.sample.extraAcked
            == if RoundOf(states[i].core, steps[i].e) <= BANDWIDTH_WINDOW then Max(old3, event) else event
  {
    HeightsAreAlwaysSound(delay, states, steps, maxPackets, i);
    var _, _ := RunProjectsToCore(delay, states, steps, maxPackets, i);
    RunProjectsToSampler(delay, states, steps, maxPackets, i);
    StartsFresh(states[0], maxPackets);
    RoundIsNatural(delay, states, steps, maxPackets, i);
    hide S.Run, S.Unused, S.Ordered, RoundOf, Next, IsStart, Observed, StartsEpoch, NewEvent, Height, Remeasured, AllUnstamped,
         SamplerFed, Acknowledges, MarksEpoch, Reported, CanHandle, AllReport;
    G.HeightsAreUnstamped(states[0].sampler, SamplerOps(states, steps, i), BANDWIDTH_WINDOW);
    var s, e := states[i], steps[i].e;
    assert Enabled(s, steps[i], Now(steps, i));
    hide IsRun;
    EventKeepsHeightsSound(s, e, Now(steps, i));
    FedHeights(s, e);
    ReportsRound(s, e);
    IncreaseForgetsHeightsAfterWindow(s.sampler.heights, Reported(s, e));
  }

  // And in every run each of the three heights is the largest of all measured since its own recording, among those
  // measured since the filter was last cleared.
  lemma HeightsAreMaximaInRuns(delay: nat, states: seq<System>, steps: seq<Step>, maxPackets: int, i: nat)
    returns (a: int, b: int, c: int)
    requires IsRun(delay, states, steps) && IsStart(states[0], maxPackets) && i <= |steps|
    ensures AllReport(steps, i)
    ensures var fed, f := Fed(G.HeightOpsOf(states[0].sampler, SamplerOps(states, steps, i))), states[i].sampler.heights.filter;
            if fed == [] then f == Fresh(BANDWIDTH_WINDOW, NO_EXTRA) else Recorded(MaxExtraAcked, fed, f, a, b, c)
  {
    RunProjectsToSampler(delay, states, steps, maxPackets, i);
    StartsFresh(states[0], maxPackets);
    hide S.Run, S.Unused, S.Ordered, IsRun, IsStart, Recorded, AllReport;
    a, b, c := G.HeightsAreSuffixMaxima(states[0].sampler, SamplerOps(states, steps, i), BANDWIDTH_WINDOW);
  }

  lemma ReportsRound(s: System, e: Event)
    ensures Reported(s, e).round == RoundOf(s.core, e)
  {
    hide LoopTally, RoundOf, EndBandwidth;
  }

  lemma StartsFresh(s: System, maxPackets: int)
    requires IsStart(s, maxPackets)
    ensures s.sampler.heights.filter == Fresh(BANDWIDTH_WINDOW, NO_EXTRA)
  {
    hide NewCore;
  }
}
