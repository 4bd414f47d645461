// Ack aggregation in runs of the whole sender, told by what its events report: how many extra bytes each one finds, counted
// over the packets and the clock of the run.
module SystemEpochs {
  import opened AckHeights
  import opened Rates
  import opened SamplerStates
  import opened SenderStates
  import opened SystemHeights
  import opened SystemLaws
  import opened SystemRuns
  import opened WindowedFilters
  import C = SenderRuns

  // ---- Settings ----

  // What the profile decided for the tracker, in every state.
  ghost predicate KeepsSettings(s: Sampler, c: Config) {
    && s.heights.threshold == (if c.overestimateAvoidance then 2.0 else 1.0)
    && s.heights.reduceOnIncrease == c.reduceExtraAcked && !s.heights.newEpochAfterRound && !s.limitBySendRate
    && s.overestimateAvoidance == c.overestimateAvoidance
  }

  lemma SettlingKeepsSettings(s: System, e: Event)
    ensures var r, fed := SamplerSettled(s, e), SamplerFed(s, e).0;
            && r.totalBytesAcked == fed.totalBytesAcked && r.limitBySendRate == fed.limitBySendRate
            && r.overestimateAvoidance == fed.overestimateAvoidance && r.heights == fed.heights.(filter := r.heights.filter)
            && r.packets == fed.packets && r.lastSentPacket == fed.lastSentPacket
  {
    hide SamplerFed, FactsOf, ExpiresHeights, ProbesRtt, RoundOf;
  }

  lemma {:induction false} AcksKeepSettings(s: Sampler, time: int, acked: seq<AckedPacket>)
    ensures var r := AfterAcks(s, time, acked).sampler;
            r.limitBySendRate == s.limitBySendRate && r.lastSentPacket == s.lastSentPacket
  {
    if acked != [] {
      var n := |acked| - 1;
      AcksKeepSettings(s, time, acked[..n]);
      AckKeepsSettings(AfterAcks(s, time, acked[..n]).sampler, time, acked[n].packetNumber);
      hide AckSample, AfterAck;
    }
  }

  lemma AckKeepsSettings(s: Sampler, time: int, packetNumber: int)
    ensures var r := AfterAck(s, time, packetNumber); r.limitBySendRate == s.limitBySendRate && r.lastSentPacket == s.lastSentPacket
  {
    hide DroppedByChoice;
  }

  lemma {:induction false} LossesKeepSettings(s: Sampler, lost: seq<LostPacket>)
    ensures AfterLosses(s, lost).0 == s.(totalBytesLost := AfterLosses(s, lost).0.totalBytesLost)
  {
    if lost != [] { LossesKeepSettings(s, lost[..|lost| - 1]); }
  }

  // The packet acknowledged last, live or not.
  lemma {:induction false} AcksSetLast(s: Sampler, time: int, acked: seq<AckedPacket>)
    requires acked != []
    ensures AfterAcks(s, time, acked).sampler.lastAckedPacket == acked[|acked| - 1].packetNumber
  {
    hide AfterAcks, AckSample, DroppedByChoice;
    var n := |acked| - 1;
    assert AfterAcks(s, time, acked) == Tallied(AfterAcks(s, time, acked[..n]), time, acked[n].packetNumber) by {
      LastTally(s, time, acked);
    }
  }

  lemma LastTally(s: Sampler, time: int, acked: seq<AckedPacket>)
    requires acked != []
    ensures AfterAcks(s, time, acked)
            == Tallied(AfterAcks(s, time, acked[..|acked| - 1]), time, acked[|acked| - 1].packetNumber)
  {
    hide Tallied;
  }

  // ---- What the tracker is told ----

  // The bandwidth it is given: the larger of the estimate before the event and the event's largest sample.
  function TrackedBandwidth(s: System, e: Event): int {
    var sample := SamplerFed(s, e).1;
    if s.filter.best.sample < sample.maxBandwidth then sample.maxBandwidth else s.filter.best.sample
  }

  lemma FedIsLoop(s: System, e: Event)
    requires e.acked != []
    ensures var t, (fed, sample) := LoopTally(s, e), SamplerFed(s, e);
            && sample.maxBandwidth == t.event.maxBandwidth && fed.totalBytesAcked == t.sampler.totalBytesAcked
            && fed.limitBySendRate == t.sampler.limitBySendRate && fed.lastSentPacket == t.sampler.lastSentPacket
            && fed.overestimateAvoidance == t.sampler.overestimateAvoidance
  {
    hide SamplerNotified, AfterLosses, AfterAcks, EndBandwidth, RoundOf, LastState, Observed;
  }

  lemma FedOfLosses(s: System, e: Event)
    requires e.acked == []
    ensures var fed := SamplerFed(s, e).0;
            && fed.totalBytesAcked == s.sampler.totalBytesAcked && fed.limitBySendRate == s.sampler.limitBySendRate
            && fed.lastSentPacket == s.sampler.lastSentPacket && fed.overestimateAvoidance == s.sampler.overestimateAvoidance
  {
    LossesKeepSettings(SamplerNotified(s, e), e.lost);
    hide AfterLosses, Target;
  }

  lemma LoopKeepsSettings(s: System, e: Event)
    ensures var r := LoopTally(s, e).sampler;
            && r.limitBySendRate == s.sampler.limitBySendRate && r.lastSentPacket == s.sampler.lastSentPacket
            && r.overestimateAvoidance == s.sampler.overestimateAvoidance
            && r.ackedAfterLastEvent == s.sampler.ackedAfterLastEvent
            && (r.totalBytesAcked == s.sampler.totalBytesAcked || r.lastAckedAckTime == e.time)
            && (e.acked != [] ==> r.lastAckedPacket == e.acked[|e.acked| - 1].packetNumber)
  {
    var s0 := SamplerNotified(s, e);
    assert s0 == s.sampler.(isAppLimited := s0.isAppLimited, endOfAppLimitedPhase := s0.endOfAppLimitedPhase) by { hide Target; }
    hide SamplerNotified;
    LossesKeepSettings(s0, e.lost);
    var s1 := AfterLosses(s0, e.lost).0;
    hide AfterLosses;
    AcksKeepSettings(s1, e.time, e.acked);
    AcksKeepHeights(s1, e.time, e.acked);
    if e.acked != [] { AcksSetLast(s1, e.time, e.acked); }
    hide AfterAcks;
  }

  // What the tracker is told of an event, in the event's own terms.
  lemma ReportedIs(s: System, e: Event)
    requires e.acked != [] && !s.sampler.limitBySendRate && s.sampler.ackedAfterLastEvent == s.sampler.totalBytesAcked
    requires 0 <= s.filter.best.sample < INF_BANDWIDTH && SamplerFed(s, e).0.totalBytesAcked != s.sampler.totalBytesAcked
    ensures Reported(s, e)
            == AckEvent(TrackedBandwidth(s, e), s.filter.best.sample < SamplerFed(s, e).1.maxBandwidth, RoundOf(s.core, e),
                        s.sampler.lastSentPacket, e.acked[|e.acked| - 1].packetNumber, e.time,
                        SamplerFed(s, e).0.totalBytesAcked - s.sampler.totalBytesAcked)
    ensures 0 <= TrackedBandwidth(s, e) < INF_BANDWIDTH
  {
    FedIsLoop(s, e);
    LoopKeepsSettings(s, e);
    EventSampleIsWholeRate(AfterLosses(SamplerNotified(s, e), e.lost).0, e.time, e.acked);
    NoSendRateLimit(s, e);
    hide AfterLosses, AfterAcks, SamplerFed, RoundOf, SamplerNotified;
  }

  lemma NoSendRateLimit(s: System, e: Event)
    ensures AfterLosses(SamplerNotified(s, e), e.lost).0.limitBySendRate == s.sampler.limitBySendRate
  {
    LossesKeepSettings(SamplerNotified(s, e), e.lost);
    hide AfterLosses, Target;
  }

  // ---- Epochs in the history ----

  // Step n acknowledges bytes that the sampler tracks.
  predicate Credits(states: seq<System>, steps: seq<Step>, n: nat)
    requires n < |steps| < |states|
  {
    steps[n].Congestion? && states[n + 1].sampler.totalBytesAcked != states[n].sampler.totalBytesAcked
  }

  // What the event of step n reports as extra.
  function Extra(states: seq<System>, steps: seq<Step>, n: nat): int
    requires n < |steps| < |states| && steps[n].Congestion?
  {
    SamplerFed(states[n], steps[n].e).1.extraAcked
  }

  // The last step before i whose event acknowledged bytes and found none of them extra; -1 if there is none.
  function EpochEvent(states: seq<System>, steps: seq<Step>, i: nat): (k: int)
    requires i <= |steps| < |states|
    ensures -1 <= k < i
    ensures 0 <= k ==> steps[k].Congestion?
  {
    if i == 0 then -1
    else if Credits(states, steps, i - 1) && Extra(states, steps, i - 1) == 0 then i - 1
    else EpochEvent(states, steps, i - 1)
  }

  // n is what the bandwidth carries in the time, in whole bytes.
  ghost predicate Carries(bandwidth: int, time: int, n: int) { n * 8_000_000_000 <= bandwidth * time < (n + 1) * 8_000_000_000 }

  lemma ExpectedIsCarried(bandwidth: int, time: int)
    ensures Carries(bandwidth, time, BytesFromBandwidthAndTimeDelta(bandwidth, time))
  {
  }

  // What the tracker holds of the current epoch.
  ghost predicate HoldsEpoch(states: seq<System>, steps: seq<Step>, i: nat)
    requires i <= |steps| < |states|
  {
    var k, h := EpochEvent(states, steps, i), states[i].sampler.heights;
    if k < 0 then h.epochStart == 0
    else
      && h.epochStart == steps[k].e.time && 0 < h.epochStart
      && h.epochBytes == states[i].sampler.totalBytesAcked - states[k].sampler.totalBytesAcked
  }

  // One observation with the settings of a profile.
  lemma ObservedIs(h: Heights, ack: AckEvent, factor: real) returns (expected: int)
    requires h.threshold == factor && !h.newEpochAfterRound
    ensures Carries(ack.bandwidth, ack.time - h.epochStart, expected)
    ensures var (r, extra) := Observed(h, ack);
            if h.epochStart == 0 || h.epochBytes as real <= factor * (expected as real)
            then extra == 0 && r.epochStart == ack.time && r.epochBytes == ack.bytes
            else extra == h.epochBytes + ack.bytes - expected && r.epochStart == h.epochStart && r.epochBytes == h.epochBytes + ack.bytes
    ensures var r := Observed(h, ack).0;
            r.threshold == h.threshold && r.reduceOnIncrease == h.reduceOnIncrease && r.newEpochAfterRound == h.newEpochAfterRound
  {
    expected := BytesFromBandwidthAndTimeDelta(ack.bandwidth, ack.time - h.epochStart);
    ExpectedIsCarried(ack.bandwidth, ack.time - h.epochStart);
    hide Reduced, Updated, BytesFromBandwidthAndTimeDelta, Carries;
  }

  // What one event does to the epoch.
  lemma EventTracks(s: System, e: Event, now: int, factor: real) returns (expected: int)
    requires HeightsSound(s.sampler, now) && !s.sampler.limitBySendRate && 0 <= s.filter.best.sample < INF_BANDWIDTH
    requires s.sampler.heights.threshold == factor && !s.sampler.heights.newEpochAfterRound
    ensures var h, (fed, sample) := s.sampler.heights, SamplerFed(s, e);
            var bytes := fed.totalBytesAcked - s.sampler.totalBytesAcked;
            if bytes == 0 then sample.extraAcked == 0 && fed.heights == h
            else
              && Carries(TrackedBandwidth(s, e), e.time - h.epochStart, expected)
              && if h.epochStart == 0 || h.epochBytes as real <= factor * (expected as real)
                 then sample.extraAcked == 0 && fed.heights.epochStart == e.time && fed.heights.epochBytes == bytes
                 else
                   && sample.extraAcked == h.epochBytes + bytes - expected
                   && fed.heights.epochStart == h.epochStart && fed.heights.epochBytes == h.epochBytes + bytes
    ensures var h, r := s.sampler.heights, SamplerFed(s, e).0;
            && r.heights.threshold == h.threshold && r.heights.reduceOnIncrease == h.reduceOnIncrease && !r.heights.newEpochAfterRound
            && r.limitBySendRate == s.sampler.limitBySendRate && r.overestimateAvoidance == s.sampler.overestimateAvoidance
  {
    hide SamplerFed, HeightsSound, Observed, Reported, TrackedBandwidth, Carries;
    AckedAfterIsAcked(s.sampler, now);
    FedByReport(s, e);
    FedKeepsSettings(s, e);
    expected := 0;
    if SamplerFed(s, e).0.totalBytesAcked != s.sampler.totalBytesAcked {
      ReportedIs(s, e);
      expected := ObservedIs(s.sampler.heights, Reported(s, e), factor);
    }
  }

  lemma AckedAfterIsAcked(s: Sampler, now: int)
    requires HeightsSound(s, now)
    ensures s.ackedAfterLastEvent == s.totalBytesAcked
  {
  }

  lemma FedByReport(s: System, e: Event)
    requires s.sampler.ackedAfterLastEvent == s.sampler.totalBytesAcked
    ensures var (fed, sample) := SamplerFed(s, e);
            if fed.totalBytesAcked == s.sampler.totalBytesAcked then fed.heights == s.sampler.heights && sample.extraAcked == 0
            else e.acked != [] && (fed.heights, sample.extraAcked) == Observed(s.sampler.heights, Reported(s, e))
  {
    FedHeights(s, e);
    if e.acked == [] { FedOfLosses(s, e); } else { FedIsLoop(s, e); }
    hide LoopTally, SamplerFed, Observed, Reported;
  }

  lemma FedKeepsSettings(s: System, e: Event)
    ensures var fed := SamplerFed(s, e).0;
            fed.limitBySendRate == s.sampler.limitBySendRate && fed.overestimateAvoidance == s.sampler.overestimateAvoidance
  {
    LoopKeepsSettings(s, e);
    if e.acked == [] { FedOfLosses(s, e); } else { FedIsLoop(s, e); }
    hide LoopTally, SamplerFed;
  }

  lemma EventSettles(s: System, e: Event)
    requires CanHandle(s, e)
    ensures var fed, r := SamplerFed(s, e).0, AfterEvent(s, e).sampler;
            && r.totalBytesAcked == fed.totalBytesAcked && r.limitBySendRate == fed.limitBySendRate
            && r.overestimateAvoidance == fed.overestimateAvoidance && r.heights == fed.heights.(filter := r.heights.filter)
  {
    SettlingKeepsSettings(s, e);
    hide SamplerFed, SamplerSettled, FilterFed, AfterFacts, CanPace, FactsOf;
  }

  lemma EventKeepsSettings(s: System, e: Event, now: int, c: Config)
    requires CanHandle(s, e) && HeightsSound(s.sampler, now) && KeepsSettings(s.sampler, c)
    requires 0 <= s.filter.best.sample < INF_BANDWIDTH
    ensures KeepsSettings(AfterEvent(s, e).sampler, c)
  {
    hide SamplerFed, AfterEvent, CanHandle, HeightsSound, TrackedBandwidth, Carries;
    var _ := EventTracks(s, e, now, s.sampler.heights.threshold);
    EventSettles(s, e);
  }

  lemma StepKeepsSettings(delay: nat, s: System, step: Step, now: int, c: Config)
    requires Enabled(s, step, now) && Sound(s) && HeightsSound(s.sampler, now) && KeepsSettings(s.sampler, c)
    ensures KeepsSettings(Next(delay, s, step, now).sampler, c)
  {
    hide KeepsSettings, CanHandle, HeightsSound, AfterEvent;
    match step
    case Congestion(e) =>
      EventKeepsSettings(s, e, now, c);
    case Send(p) =>
      SendingKeepsSettings(s.sampler, p, c);
      hide Pacers.AfterSend, PacerBandwidth, AfterSent;
    case Resize(_) =>
      hide Resized;
  }

  lemma SendingKeepsSettings(s: Sampler, p: Sending, c: Config)
    requires KeepsSettings(s, c)
    ensures KeepsSettings(AfterSent(s, p.time, p.packetNumber, p.bytes, p.bytesInFlight, p.retransmittable), c)
  {
    hide Accepts;
  }

  lemma StartKeepsSettings(s: System, maxPackets: int)
    requires IsStart(s, maxPackets)
    ensures KeepsSettings(s.sampler, s.core.config) && s.sampler.heights.epochStart == 0
  {
  }

  lemma {:induction false} SettingsAreKept(delay: nat, states: seq<System>, steps: seq<Step>, maxPackets: int, i: nat)
    requires IsRun(delay, states, steps) && IsStart(states[0], maxPackets) && i <= |steps|
    ensures KeepsSettings(states[i].sampler, states[0].core.config)
  {
    hide Next, Enabled, IsStart, Sound, SentBy, KeepsSettings, HeightsSound, C.IsRun, C.IsStart, Projects;
    if i == 0 {
      StartKeepsSettings(states[0], maxPackets);
    } else {
      SettingsAreKept(delay, states, steps, maxPackets, i - 1);
      HeightsAreAlwaysSound(delay, states, steps, maxPackets, i - 1);
      var _, _ := RunProjectsToCore(delay, states, steps, maxPackets, i - 1);
      assert Enabled(states[i - 1], steps[i - 1], Now(steps, i - 1));
      assert states[i] == Next(delay, states[i - 1], steps[i - 1], Now(steps, i - 1));
      hide IsRun;
      StepKeepsSettings(delay, states[i - 1], steps[i - 1], Now(steps, i - 1), states[0].core.config);
    }
  }

  lemma OtherStepsKeepEpoch(delay: nat, s: System, step: Step, now: int)
    requires Enabled(s, step, now) && !step.Congestion?
    ensures var r := Next(delay, s, step, now).sampler;
            r.heights == s.sampler.heights && r.totalBytesAcked == s.sampler.totalBytesAcked
  {
    hide Pacers.AfterSend, PacerBandwidth, Accepts, Resized;
  }

  // The epoch after a step, from the epoch before it.
  lemma EpochGoesOn(states: seq<System>, steps: seq<Step>, i: nat)
    requires i < |steps| < |states|
    ensures EpochEvent(states, steps, i + 1)
            == if Credits(states, steps, i) && Extra(states, steps, i) == 0 then i else EpochEvent(states, steps, i)
  {
    hide Credits, Extra;
  }

  // ---- The clock and the totals ----

  lemma {:induction false} UntrackedCreditsNothing(s: Sampler, time: int, acked: seq<AckedPacket>)
    requires s.packets.live == map[]
    ensures var r := AfterAcks(s, time, acked).sampler; r.packets == s.packets && r.totalBytesAcked == s.totalBytesAcked
  {
    if acked != [] {
      UntrackedCreditsNothing(s, time, acked[..|acked| - 1]);
      hide AckSample;
    }
  }

  lemma EventWithoutPackets(s: System, e: Event)
    requires s.sampler.packets.live == map[]
    ensures SamplerFed(s, e).0.totalBytesAcked == s.sampler.totalBytesAcked
  {
    if e.acked == [] {
      FedOfLosses(s, e);
    } else {
      FedIsLoop(s, e);
      LossesKeepPackets(SamplerNotified(s, e), e.lost);
      UntrackedCreditsNothing(AfterLosses(SamplerNotified(s, e), e.lost).0, e.time, e.acked);
      hide SamplerFed, AfterLosses, AfterAcks, Target;
    }
  }

  lemma EventOnlyCredits(s: System, e: Event)
    requires SentBy(s.sampler, e.time)
    ensures s.sampler.totalBytesAcked <= SamplerFed(s, e).0.totalBytesAcked && SamplerFed(s, e).0.packets == s.sampler.packets
  {
    var s0 := SamplerNotified(s, e);
    assert s0.packets == s.sampler.packets && s0.totalBytesAcked == s.sampler.totalBytesAcked;
    CongestionOnlyAdds(s0, SamplerStates.Congestion(e.time, e.acked, e.lost, s.filter.best.sample, INF_BANDWIDTH, RoundOf(s.core, e)));
    hide AfterCongestion, SamplerNotified, RoundOf;
  }

  lemma StepStartsClock(delay: nat, s: System, step: Step, now: int)
    requires Enabled(s, step, now) && 0 <= now && SentBy(s.sampler, now) && (s.sampler.packets.live != map[] ==> 0 < now)
    ensures Next(delay, s, step, now).sampler.packets.live != map[] ==> 0 < TimeOf(step, now)
  {
    hide Pacers.AfterSend, PacerBandwidth, AfterSent, SamplerFed, SamplerSettled, FilterFed, AfterFacts, CanPace, FactsOf, Resized;
    if step.Congestion? {
      EventOnlyCredits(s, step.e);
      SettlingKeepsSettings(s, step.e);
    }
  }

  // Packets are tracked only once the clock has started.
  lemma {:induction false} ClockHasStarted(delay: nat, states: seq<System>, steps: seq<Step>, maxPackets: int, i: nat)
    requires IsRun(delay, states, steps) && IsStart(states[0], maxPackets) && i <= |steps|
    ensures states[i].sampler.packets.live != map[] ==> 0 < Now(steps, i)
  {
    hide Next, Enabled, IsStart, Sound, SentBy, C.IsRun, C.IsStart, Projects, TimeOf;
    if i == 0 {
      StartTracksNothing(states[0], maxPackets);
    } else {
      ClockHasStarted(delay, states, steps, maxPackets, i - 1);
      var _, _ := RunProjectsToCore(delay, states, steps, maxPackets, i - 1);
      assert Enabled(states[i - 1], steps[i - 1], Now(steps, i - 1));
      assert states[i] == Next(delay, states[i - 1], steps[i - 1], Now(steps, i - 1));
      hide IsRun;
      StepStartsClock(delay, states[i - 1], steps[i - 1], Now(steps, i - 1));
    }
  }

  lemma StartTracksNothing(s: System, maxPackets: int)
    requires IsStart(s, maxPackets)
    ensures s.sampler.packets.live == map[]
  {
    hide NewCore;
  }

  // ---- Extra bytes ----

  ghost predicate IsWithin(bytes: int, factor: real, expected: int) { bytes as real <= factor * (expected as real) }

  lemma AheadIsPositive(bytes: int, expected: int, factor: real, acked: int, bandwidth: nat, time: nat)
    requires Carries(bandwidth, time, expected) && 1.0 <= factor && 0 < acked && !IsWithin(bytes, factor, expected)
    ensures 0 < bytes + acked - expected
  {
    assert 0 <= bandwidth * time;
    assert 0 <= expected;
    assert expected as real <= factor * (expected as real);
  }

  // What the event of step i does to the tracker, in the terms of the run.
  ghost predicate Tracks(s: System, e: Event, r: Sampler, extra: int, factor: real, expected: int) {
    var h, bytes := s.sampler.heights, r.totalBytesAcked - s.sampler.totalBytesAcked;
    if bytes == 0 then extra == 0 && r.heights.epochStart == h.epochStart && r.heights.epochBytes == h.epochBytes
    else
      && 0 < bytes && 0 < e.time && Carries(TrackedBandwidth(s, e), e.time - h.epochStart, expected)
      && if h.epochStart == 0 || IsWithin(h.epochBytes, factor, expected)
         then extra == 0 && r.heights.epochStart == e.time && r.heights.epochBytes == bytes
         else
           && 0 < extra == h.epochBytes + bytes - expected
           && r.heights.epochStart == h.epochStart && r.heights.epochBytes == h.epochBytes + bytes
  }

  lemma EventTracksRun(s: System, e: Event, now: int, c: Config) returns (expected: int)
    requires CanHandle(s, e) && 0 <= now <= e.time && Sound(s) && SentBy(s.sampler, e.time) && HeightsSound(s.sampler, now)
    requires KeepsSettings(s.sampler, c) && (s.sampler.packets.live != map[] ==> 0 < now)
    ensures Tracks(s, e, AfterEvent(s, e).sampler, SamplerFed(s, e).1.extraAcked, if c.overestimateAvoidance then 2.0 else 1.0, expected)
  {
    hide SamplerFed, AfterEvent, CanHandle, SentBy, TrackedBandwidth, Carries;
    var factor := s.sampler.heights.threshold;
    expected := EventTracks(s, e, now, factor);
    EventSettles(s, e);
    EventOnlyCredits(s, e);
    if s.sampler.packets.live == map[] { EventWithoutPackets(s, e); }
    var h, bytes := s.sampler.heights, SamplerFed(s, e).0.totalBytesAcked - s.sampler.totalBytesAcked;
    if bytes != 0 && !IsWithin(h.epochBytes, factor, expected) {
      TrackedIsNatural(s, e);
      AheadIsPositive(h.epochBytes, expected, factor, bytes, TrackedBandwidth(s, e), e.time - h.epochStart);
    }
  }

  lemma TrackedIsNatural(s: System, e: Event)
    requires 0 <= s.filter.best.sample
    ensures 0 <= TrackedBandwidth(s, e)
  {
    hide SamplerFed;
  }

  lemma StepTracks(delay: nat, states: seq<System>, steps: seq<Step>, maxPackets: int, i: nat) returns (expected: int)
    requires IsRun(delay, states, steps) && IsStart(states[0], maxPackets) && i < |steps|
    ensures |states| == |steps| + 1
    ensures if steps[i].Congestion?
            then Tracks(states[i], steps[i].e, states[i + 1].sampler, Extra(states, steps, i),
                        if states[0].core.config.overestimateAvoidance then 2.0 else 1.0, expected)
            else
              && states[i + 1].sampler.heights == states[i].sampler.heights
              && states[i + 1].sampler.totalBytesAcked == states[i].sampler.totalBytesAcked
  {
    hide IsStart, Sound, HeightsSound, KeepsSettings, Tracks, C.IsRun, C.IsStart, Projects, SamplerFed, AfterEvent, CanHandle;
    expected := 0;
    SettingsAreKept(delay, states, steps, maxPackets, i);
    HeightsAreAlwaysSound(delay, states, steps, maxPackets, i);
    ClockHasStarted(delay, states, steps, maxPackets, i);
    var _, _ := RunProjectsToCore(delay, states, steps, maxPackets, i);
    var s, step, now := states[i], steps[i], Now(steps, i);
    assert Enabled(s, step, now) && states[i + 1] == Next(delay, s, step, now);
    hide IsRun;
    if step.Congestion? {
      expected := EventTracksRun(s, step.e, now, states[0].core.config);
    } else {
      OtherStepsKeepEpoch(delay, s, step, now);
      hide Next, Enabled;
    }
  }

  lemma {:induction false} EpochIsHeld(delay: nat, states: seq<System>, steps: seq<Step>, maxPackets: int, i: nat)
    requires IsRun(delay, states, steps) && IsStart(states[0], maxPackets) && i <= |steps|
    ensures |states| == |steps| + 1 && HoldsEpoch(states, steps, i)
  {
    assert |states| == |steps| + 1;
    hide IsRun, IsStart, KeepsSettings, SamplerFed, TrackedBandwidth, Carries, IsWithin, Tracks;
    if i == 0 {
      StartKeepsSettings(states[0], maxPackets);
    } else {
      EpochIsHeld(delay, states, steps, maxPackets, i - 1);
      var expected := StepTracks(delay, states, steps, maxPackets, i - 1);
      StepKeepsEpoch(states, steps, i - 1, if states[0].core.config.overestimateAvoidance then 2.0 else 1.0, expected);
    }
  }

  lemma StepKeepsEpoch(states: seq<System>, steps: seq<Step>, i: nat, factor: real, expected: int)
    requires i < |steps| < |states| && HoldsEpoch(states, steps, i)
    requires if steps[i].Congestion? then Tracks(states[i], steps[i].e, states[i + 1].sampler, Extra(states, steps, i), factor, expected)
             else
               && states[i + 1].sampler.heights == states[i].sampler.heights
               && states[i + 1].sampler.totalBytesAcked == states[i].sampler.totalBytesAcked
    ensures HoldsEpoch(states, steps, i + 1)
  {
    EpochGoesOn(states, steps, i);
    hide EpochEvent, TrackedBandwidth, Carries, IsWithin, Extra;
  }

  lemma ExtraOfTracks(states: seq<System>, steps: seq<Step>, i: nat, factor: real, expected: int)
    requires i < |steps| < |states| && HoldsEpoch(states, steps, i) && steps[i].Congestion?
    requires Tracks(states[i], steps[i].e, states[i + 1].sampler, Extra(states, steps, i), factor, expected)
    ensures var k := EpochEvent(states, steps, i);
            if !Credits(states, steps, i) || k < 0 then Extra(states, steps, i) == 0
            else
              && Carries(TrackedBandwidth(states[i], steps[i].e), steps[i].e.time - steps[k].e.time, expected)
              && var before := states[i].sampler.totalBytesAcked - states[k].sampler.totalBytesAcked;
                 if IsWithin(before, factor, expected) then Extra(states, steps, i) == 0
                 else
                   && 0 < Extra(states, steps, i)
                   && Extra(states, steps, i) == states[i + 1].sampler.totalBytesAcked - states[k].sampler.totalBytesAcked - expected
  {
    hide EpochEvent, TrackedBandwidth, Carries, IsWithin, Extra;
  }

  // In every run: an event that acknowledges bytes reports none of them extra when no event did before, or when the bytes
  // acknowledged since the last event that reported none, that event's included, are within the factor of what the bandwidth
  // carries in the time since. Otherwise it reports by how much they exceed that, its own bytes included. The bandwidth is
  // the larger of the estimate and the event's largest sample, the factor 2 for a profile that avoids overestimates, else 1.
  lemma ExtraBytesAreExact(delay: nat, states: seq<System>, steps: seq<Step>, maxPackets: int, i: nat) returns (expected: int)
    requires IsRun(delay, states, steps) && IsStart(states[0], maxPackets) && i < |steps| && steps[i].Congestion?
    ensures |states| == |steps| + 1
    ensures var k := EpochEvent(states, steps, i);
            var factor := if states[0].core.config.overestimateAvoidance then 2.0 else 1.0;
            if !Credits(states, steps, i) || k < 0 then Extra(states, steps, i) == 0
            else
              && Carries(TrackedBandwidth(states[i], steps[i].e), steps[i].e.time - steps[k].e.time, expected)
              && var before := states[i].sampler.totalBytesAcked - states[k].sampler.totalBytesAcked;
                 if IsWithin(before, factor, expected) then Extra(states, steps, i) == 0
                 else
                   && 0 < Extra(states, steps, i)
                   && Extra(states, steps, i) == states[i + 1].sampler.totalBytesAcked - states[k].sampler.totalBytesAcked - expected
  {
    assert |states| == |steps| + 1;
    hide IsRun, IsStart, SamplerFed, TrackedBandwidth, Carries, EpochEvent, IsWithin, HoldsEpoch, Tracks;
    EpochIsHeld(delay, states, steps, maxPackets, i);
    expected := StepTracks(delay, states, steps, maxPackets, i);
    ExtraOfTracks(states, steps, i, if states[0].core.config.overestimateAvoidance then 2.0 else 1.0, expected);
  }
}
