// What an event leaves behind in the whole sender: which packets are still tracked, what is in flight, whether the sampler is
// app-limited, and what the ack heights are made of.
module SystemEvents {
  import opened AckHeights
  import opened Options
  import opened Rates
  import opened SamplerStates
  import opened SenderStates
  import opened SystemEpochs
  import opened SystemHeights
  import opened SystemLaws
  import opened SystemReports
  import opened SystemRuns
  import opened WindowedFilters
  import C = SenderRuns
  import R = SenderRounds
  import M = SenderMarks

  // ---- Bytes ----

  // Any split of the packets splits the bytes they report.
  lemma {:induction false} AckedBytesSplit(a: seq<AckedPacket>, b: seq<AckedPacket>)
    ensures AckedBytes(a + b) == AckedBytes(a) + AckedBytes(b)
    ensures forall p: AckedPacket :: AckedBytes([p]) == p.bytesAcked
  {
    forall p: AckedPacket ensures AckedBytes([p]) == p.bytesAcked {
      assert [p][..0] == [];
    }
    if b == [] {
      assert a + b == a;
    } else {
      var n := |b| - 1;
      AckedBytesSplit(a, b[..n]);
      assert (a + b)[..|a| + n] == a + b[..n];
    }
  }

  lemma {:induction false} LostBytesSplit(a: seq<LostPacket>, b: seq<LostPacket>)
    ensures LostBytes(a + b) == LostBytes(a) + LostBytes(b)
    ensures forall p: LostPacket :: LostBytes([p]) == p.bytesLost
  {
    forall p: LostPacket ensures LostBytes([p]) == p.bytesLost {
      assert [p][..0] == [];
    }
    if b == [] {
      assert a + b == a;
    } else {
      var n := |b| - 1;
      LostBytesSplit(a, b[..n]);
      assert (a + b)[..|a| + n] == a + b[..n];
    }
  }

  lemma {:induction false} LossesAreAdded(s: Sampler, lost: seq<LostPacket>)
    ensures AfterLosses(s, lost).0 == s.(totalBytesLost := s.totalBytesLost + LostBytes(lost))
  {
    if lost != [] { LossesAreAdded(s, lost[..|lost| - 1]); }
  }

  lemma {:induction false} AcksKeepLost(s: Sampler, time: int, acked: seq<AckedPacket>)
    ensures AfterAcks(s, time, acked).sampler.totalBytesLost == s.totalBytesLost
  {
    if acked != [] {
      AcksKeepLost(s, time, acked[..|acked| - 1]);
      AckKeepsLost(AfterAcks(s, time, acked[..|acked| - 1]).sampler, time, acked[|acked| - 1].packetNumber);
      hide AckSample, AfterAck;
    }
  }

  lemma AckKeepsLost(s: Sampler, time: int, packetNumber: int)
    ensures AfterAck(s, time, packetNumber).totalBytesLost == s.totalBytesLost
  {
    hide DroppedByChoice;
  }

  lemma FedCountsLosses(s: System, e: Event)
    ensures SamplerFed(s, e).0.totalBytesLost == s.sampler.totalBytesLost + LostBytes(e.lost)
  {
    var s0 := SamplerNotified(s, e);
    assert s0.totalBytesLost == s.sampler.totalBytesLost by { hide Target; }
    hide SamplerNotified;
    LossesAreAdded(s0, e.lost);
    AcksKeepLost(AfterLosses(s0, e.lost).0, e.time, e.acked);
    hide AfterLosses, AfterAcks, LostBytes, Observed, EndBandwidth, RoundOf, LastState;
  }

  // What the sender is told of an event: its own arguments, what its packets report acknowledged and lost, and what the
  // sampler's totals grew by.
  lemma FactsReportTheEvent(s: System, e: Event)
    requires CanHandle(s, e)
    ensures var f, r := FactsOf(s, e), AfterEvent(s, e);
            && f.time == e.time && f.rttMin == e.rttMin && f.random == e.random && f.priorInFlight == e.priorInFlight
            && f.inFlight + AckedBytes(e.acked) + LostBytes(e.lost) == e.priorInFlight
            && f.hasLosses == (|e.lost| > 0)
            && f.lastAcked == (if |e.acked| > 0 then Some(e.acked[|e.acked| - 1].packetNumber) else None)
            && f.bytesLost == LostBytes(e.lost) && f.bytesAcked == r.sampler.totalBytesAcked - s.sampler.totalBytesAcked
            && f.totalAcked == r.sampler.totalBytesAcked && f.bandwidth == r.filter.best.sample
            && f.rtt == SamplerFed(s, e).1.rtt && f.sendState == SamplerFed(s, e).1.lastPacketSendState
            && f.extraAcked == SamplerFed(s, e).1.extraAcked
            && r.sampler.totalBytesLost == s.sampler.totalBytesLost + LostBytes(e.lost)
  {
    FedCountsLosses(s, e);
    SettlingKeepsSettings(s, e);
    SettlingKeepsLost(s, e);
    hide SamplerFed, SamplerSettled, FilterFed, AfterFacts, AckedBytes, LostBytes, CanPace, Modelled;
  }

  lemma SettlingKeepsLost(s: System, e: Event)
    ensures SamplerSettled(s, e).totalBytesLost == SamplerFed(s, e).0.totalBytesLost
  {
    hide SamplerFed, FactsOf, ExpiresHeights, ProbesRtt, RoundOf;
  }

  // ---- Pruning ----

  // Packet n is numbered no lower than two below the last one acknowledged, or above the last one lost if none was.
  predicate IsKept(e: Event, n: int)
    requires e.acked != [] || e.lost != []
  {
    if e.acked != [] then e.acked[|e.acked| - 1].packetNumber - 2 <= n else e.lost[|e.lost| - 1].packetNumber < n
  }

  // After an event exactly the tracked packets are left that are numbered no lower than two below the last one acknowledged,
  // or above the last one lost if none was acknowledged; their snapshots are untouched.
  lemma EventPrunes(s: System, e: Event)
    requires CanHandle(s, e) && SentBy(s.sampler, e.time)
    ensures var r := AfterEvent(s, e).sampler.packets.live;
            && (forall n :: n in r <==> (n in s.sampler.packets.live && IsKept(e, n)))
            && forall n | n in r :: r[n] == s.sampler.packets.live[n]
  {
    EventOnlyCredits(s, e);
    SettlingKeepsSettings(s, e);
    hide SamplerFed, SamplerSettled, FilterFed, AfterFacts, CanPace, Modelled, FactsOf, SentBy;
  }

  // ---- The app-limited phase ----

  // Some of the acknowledged packets is tracked and lies beyond the phase that ended with packet number end.
  predicate PassesPhase(s: System, acked: seq<AckedPacket>, end: int) {
    exists k | 0 <= k < |acked| ::
      acked[k].packetNumber in s.sampler.packets.live && (end == INVALID_PACKET || acked[k].packetNumber > end)
  }

  predicate Passes(live: map<int, Snapshot>, n: int, end: int) { n in live && (end == INVALID_PACKET || n > end) }

  lemma AckEndsPhase(s: Sampler, time: int, packetNumber: int)
    ensures var r := AfterAck(s, time, packetNumber);
            && r.packets == s.packets && r.endOfAppLimitedPhase == s.endOfAppLimitedPhase
            && r.isAppLimited == (s.isAppLimited && !Passes(s.packets.live, packetNumber, s.endOfAppLimitedPhase))
  {
    hide DroppedByChoice;
  }

  lemma {:induction false} AcksEndPhase(s: Sampler, time: int, acked: seq<AckedPacket>)
    ensures var r := AfterAcks(s, time, acked).sampler;
            && r.packets == s.packets && r.endOfAppLimitedPhase == s.endOfAppLimitedPhase
            && (r.isAppLimited <==> s.isAppLimited
                                    && forall k | 0 <= k < |acked| :: !Passes(s.packets.live, acked[k].packetNumber, s.endOfAppLimitedPhase))
  {
    if acked != [] {
      var n := |acked| - 1;
      AcksEndPhase(s, time, acked[..n]);
      AckEndsPhase(AfterAcks(s, time, acked[..n]).sampler, time, acked[n].packetNumber);
      hide AckSample, AfterAck, Passes;
      assert forall k | 0 <= k < n :: acked[..n][k] == acked[k];
    }
  }

  lemma FedPhase(s: System, e: Event)
    ensures var notified := e.priorInFlight < Target(s.core, s.filter.best.sample, e.rttMin, 1.0);
            var end := if notified then s.sampler.lastSentPacket else s.sampler.endOfAppLimitedPhase;
            var fed := SamplerFed(s, e).0;
            && fed.endOfAppLimitedPhase == end
            && (fed.isAppLimited <==> (notified || s.sampler.isAppLimited) && !PassesPhase(s, e.acked, end))
  {
    var s0 := SamplerNotified(s, e);
    hide Target;
    LossesKeepSettings(s0, e.lost);
    var s1 := AfterLosses(s0, e.lost).0;
    AcksEndPhase(s1, e.time, e.acked);
    var end := s0.endOfAppLimitedPhase;
    assert PassesPhase(s, e.acked, end) <==> exists k | 0 <= k < |e.acked| :: Passes(s.sampler.packets.live, e.acked[k].packetNumber, end);
    FedKeepsPhase(s, e);
    hide SamplerFed, AfterLosses, AfterAcks;
  }

  lemma FedKeepsPhase(s: System, e: Event)
    ensures var s1, fed := AfterLosses(SamplerNotified(s, e), e.lost).0, SamplerFed(s, e).0;
            var loop := if e.acked == [] then s1 else LoopTally(s, e).sampler;
            fed.isAppLimited == loop.isAppLimited && fed.endOfAppLimitedPhase == loop.endOfAppLimitedPhase
  {
    hide SamplerNotified, AfterLosses, AfterAcks, Observed, EndBandwidth, RoundOf, LastState;
  }

  lemma ProbesExactly(c: Core, f: Facts, h: int)
    requires CanPace(Modelled(c, f), f) && C.ModeFits(c)
    ensures Moved(c, f).gains.mode == ProbeRtt <==> c.gains.mode == ProbeRtt || AfterFacts(c, f, h).gains.mode == ProbeRtt
  {
    M.EventLeaves(c, f, h);
    M.MovedMode(c, f);
    hide Sampled, Target, PacingUpdated, WindowUpdated, RecoveryWindowUpdated, CanPace, RoundClosed;
  }

  // After an event the sampler is app-limited, until a later packet is acknowledged, if the sender is or was in PROBE_RTT.
  // Otherwise it is if it was so or what was in flight did not reach the target, and no packet beyond the phase has been
  // acknowledged.
  lemma EventLimits(s: System, e: Event)
    requires CanHandle(s, e) && C.ModeFits(s.core)
    ensures var r := AfterEvent(s, e);
            var notified := e.priorInFlight < Target(s.core, s.filter.best.sample, e.rttMin, 1.0);
            var end := if notified then s.sampler.lastSentPacket else s.sampler.endOfAppLimitedPhase;
            if s.core.gains.mode == ProbeRtt || r.core.gains.mode == ProbeRtt
            then r.sampler.isAppLimited && r.sampler.endOfAppLimitedPhase == s.sampler.lastSentPacket
            else
              && r.sampler.endOfAppLimitedPhase == end
              && (r.sampler.isAppLimited <==> (notified || s.sampler.isAppLimited) && !PassesPhase(s, e.acked, end))
  {
    FedPhase(s, e);
    FedKeepsLastSent(s, e);
    var f, h := FactsOf(s, e), SamplerSettled(s, e).heights.filter.best.sample.extraAcked;
    ProbesExactly(s.core, f, h);
    assert AfterEvent(s, e).core == AfterFacts(s.core, f, h);
    hide SamplerFed, FactsOf, FilterFed, AfterFacts, CanPace, Modelled, Moved, ExpiresHeights, PassesPhase, Target, RoundOf, C.ModeFits;
  }

  lemma FedKeepsLastSent(s: System, e: Event)
    ensures SamplerFed(s, e).0.lastSentPacket == s.sampler.lastSentPacket
  {
    LoopKeepsSettings(s, e);
    if e.acked == [] { FedOfLosses(s, e); } else { FedIsLoop(s, e); }
    hide LoopTally, SamplerFed;
  }

  // ---- The ack heights ----

  // A height measured again is what the bytes exceed what the bandwidth carries by, and gone if they do not.
  lemma RemeasuredIs(x: ExtraAcked, bandwidth: int) returns (expected: int)
    ensures Carries(bandwidth, x.timeDelta, expected)
    ensures Remeasured(x, bandwidth)
            == if expected < x.bytesAcked then Some(ExtraAcked(x.bytesAcked - expected, x.bytesAcked, x.timeDelta, x.round)) else None
  {
    expected := BytesFromBandwidthAndTimeDelta(bandwidth, x.timeDelta);
    ExpectedIsCarried(bandwidth, x.timeDelta);
    hide BytesFromBandwidthAndTimeDelta, Carries;
  }

  // What an event feeds to the filter of the heights: nothing if it reports no extra bytes, else what it reports.
  lemma HeightFed(h: Heights, ack: AckEvent)
    requires 1.0 <= h.threshold && 0 < ack.bytes && 0 <= ack.bandwidth && h.epochStart <= ack.time
    ensures var (r, extra) := Observed(h, ack);
            var base := if h.reduceOnIncrease && ack.isNewMax then Reduced(h.filter, ack.bandwidth) else h.filter;
            r.filter == if extra == 0 then base
                        else Updated(MaxExtraAcked, NO_EXTRA, base,
                                     Entry(ExtraAcked(extra, h.epochBytes + ack.bytes, ack.time - h.epochStart, 0), ack.round))
  {
    ZeroExtraMarksNewEpoch(h, ack);
    hide Reduced, Updated, StartsEpoch, Scale, BytesFromBandwidthAndTimeDelta;
  }

  // The filter of the heights after an event, in the terms of the run.
  ghost predicate FeedsHeights(states: seq<System>, steps: seq<Step>, i: nat)
    requires i < |steps| < |states| && steps[i].Congestion?
  {
    var s, e, k := states[i], steps[i].e, EpochEvent(states, steps, i);
    var f, fed := s.sampler.heights.filter, SamplerFed(s, e).0.heights.filter;
    var rises := SamplerFed(s, e).1.maxBandwidth > s.filter.best.sample;
    var base := if states[0].core.config.reduceExtraAcked && rises then Reduced(f, TrackedBandwidth(s, e)) else f;
    if !Credits(states, steps, i) then fed == f
    else if Extra(states, steps, i) == 0 then fed == base
    else
      && 0 <= k
      && fed == Updated(MaxExtraAcked, NO_EXTRA, base,
                        Entry(ExtraAcked(Extra(states, steps, i), states[i + 1].sampler.totalBytesAcked - states[k].sampler.totalBytesAcked,
                                         e.time - steps[k].e.time, 0),
                              RoundOf(s.core, e)))
  }

  lemma EventFeeds(s: System, e: Event, now: int, c: Config)
    requires HeightsSound(s.sampler, now) && now <= e.time && Sound(s) && SentBy(s.sampler, e.time) && KeepsSettings(s.sampler, c)
    requires SamplerFed(s, e).0.totalBytesAcked != s.sampler.totalBytesAcked
    ensures var h, (fed, sample) := s.sampler.heights, SamplerFed(s, e);
            var rises := sample.maxBandwidth > s.filter.best.sample;
            var base := if c.reduceExtraAcked && rises then Reduced(h.filter, TrackedBandwidth(s, e)) else h.filter;
            fed.heights.filter
            == if sample.extraAcked == 0 then base
               else Updated(MaxExtraAcked, NO_EXTRA, base,
                            Entry(ExtraAcked(sample.extraAcked, h.epochBytes + fed.totalBytesAcked - s.sampler.totalBytesAcked,
                                             e.time - h.epochStart, 0),
                                  RoundOf(s.core, e)))
  {
    hide SamplerFed, Observed, Reported, TrackedBandwidth, Reduced, Updated, RoundOf, SentBy;
    FedByReport(s, e);
    ReportedIs(s, e);
    EventOnlyCredits(s, e);
    HeightFed(s.sampler.heights, Reported(s, e));
  }

  // In every run, what an event does to the heights follows from what it reports: nothing without acknowledged bytes; else a
  // profile that reduces them measures them again if the event's largest sample exceeds the estimate, and extra bytes, if
  // there are any, are a new height of the event's round.
  lemma HeightsFollowReports(delay: nat, states: seq<System>, steps: seq<Step>, maxPackets: int, i: nat)
    requires IsRun(delay, states, steps) && IsStart(states[0], maxPackets) && i < |steps| && steps[i].Congestion?
    ensures |states| == |steps| + 1 && FeedsHeights(states, steps, i)
  {
    hide IsStart, Sound, HeightsSound, KeepsSettings, SentBy, HoldsEpoch, C.IsRun, C.IsStart, Projects, SamplerFed, AfterEvent,
         CanHandle, Carries, IsWithin, FeedsHeights, TrackedBandwidth;
    SettingsAreKept(delay, states, steps, maxPackets, i);
    HeightsAreAlwaysSound(delay, states, steps, maxPackets, i);
    var _, _ := RunProjectsToCore(delay, states, steps, maxPackets, i);
    EpochIsHeld(delay, states, steps, maxPackets, i);
    var _ := ExtraBytesAreExact(delay, states, steps, maxPackets, i);
    var s, e, now := states[i], steps[i].e, Now(steps, i);
    assert Enabled(s, steps[i], now) && states[i + 1] == Next(delay, s, steps[i], now);
    SentLater(s, now, e.time);
    hide IsRun;
    EventSettles(s, e);
    EpochFeeds(states, steps, i, now);
  }

  lemma EpochFeeds(states: seq<System>, steps: seq<Step>, i: nat, now: int)
    requires i < |steps| < |states| && steps[i].Congestion? && HoldsEpoch(states, steps, i)
    requires var s, e := states[i], steps[i].e;
             && now <= e.time && HeightsSound(s.sampler, now) && Sound(s) && SentBy(s.sampler, e.time)
             && KeepsSettings(s.sampler, states[0].core.config)
             && states[i + 1].sampler.totalBytesAcked == SamplerFed(s, e).0.totalBytesAcked
    requires Extra(states, steps, i) != 0 ==> 0 <= EpochEvent(states, steps, i)
    ensures FeedsHeights(states, steps, i)
  {
    hide Sound, HeightsSound, KeepsSettings, SentBy, SamplerFed, Reduced, Updated, TrackedBandwidth, EpochEvent, RoundOf;
    var s, e := states[i], steps[i].e;
    FedWithoutReport(s, e, now);
    if SamplerFed(s, e).0.totalBytesAcked != s.sampler.totalBytesAcked { EventFeeds(s, e, now, states[0].core.config); }
  }

  lemma SentLater(s: System, now: int, time: int)
    requires SentBy(s.sampler, now) && now <= time
    ensures SentBy(s.sampler, time)
  {
  }

  lemma FedWithoutReport(s: System, e: Event, now: int)
    requires HeightsSound(s.sampler, now)
    ensures SamplerFed(s, e).0.totalBytesAcked == s.sampler.totalBytesAcked ==> SamplerFed(s, e).0.heights == s.sampler.heights
  {
    FedByReport(s, e);
    hide SamplerFed, Observed, Reported;
  }

  lemma SettledHeights(s: System, e: Event)
    requires CanHandle(s, e)
    ensures var f, round := FactsOf(s, e), RoundOf(s.core, e);
            var fed := SamplerFed(s, e).0.heights.filter;
            AfterEvent(s, e).sampler.heights.filter
            == if ExpiresHeights(s.core, f) then Estimates(fed.window, Entry(ExtraAcked(0, 0, 0, round), round),
                                                           Entry(ExtraAcked(0, 0, 0, round), round), Entry(ExtraAcked(0, 0, 0, round), round))
               else fed
  {
    hide SamplerFed, FactsOf, ExpiresHeights, ProbesRtt, RoundOf, FilterFed, AfterFacts, CanPace, Modelled;
  }

  lemma ExpiresExactly(c: Core, f: Facts, h: int)
    ensures ExpiresHeights(c, f)
            <==> && R.Compares(c, C.Congestion(f, h)) && 4 * f.bandwidth + 3 >= 5 * c.growth.bandwidthAtLastRound
                 && c.config.expireAckAggregationInStartup
  {
    C.MeasuringKeeps(c, f);
    assert Cycled(c, f).growth == Measured(c, f).growth by { hide Measured, GainCycled; }
    M.GrowsExactly(c.growth, f.bandwidth);
    hide Measured, Cycled, IsRoundStart, Scale;
  }

  // The heights start over from nothing exactly at an event at which start-up compares its estimate and finds growth, for a
  // profile that lets them expire in start-up.
  lemma HeightsRestartExactly(delay: nat, states: seq<System>, steps: seq<Step>, maxPackets: int, i: nat)
    requires IsRun(delay, states, steps) && IsStart(states[0], maxPackets) && i < |steps| && steps[i].Congestion?
    ensures |states| == |steps| + 1
    ensures var s, e, r := states[i], steps[i].e, states[i + 1];
            var compares := M.Raises(Cores(states), i) && !s.core.growth.full && !M.LastLimited(CoreSteps(states, steps), i + 1);
            var grows := 4 * r.filter.best.sample + 3 >= 5 * s.core.growth.bandwidthAtLastRound;
            var none := Entry(ExtraAcked(0, 0, 0, RoundOf(s.core, e)), RoundOf(s.core, e));
            r.sampler.heights.filter
            == if compares && grows && s.core.config.expireAckAggregationInStartup then Estimates(r.sampler.heights.filter.window, none, none, none)
               else SamplerFed(s, e).0.heights.filter
  {
    CoresRun(delay, states, steps, maxPackets);
    hide IsStart, C.IsRun, C.IsStart, AfterEvent, CanHandle, FactsOf, SamplerFed, M.Raises, M.LastLimited, RoundOf, R.Compares, ExpiresHeights;
    M.ComparesExactly(Cores(states), CoreSteps(states, steps), maxPackets, i);
    var s, e, now := states[i], steps[i].e, Now(steps, i);
    assert Enabled(s, steps[i], now) && states[i + 1] == Next(delay, s, steps[i], now);
    hide IsRun;
    SettledHeights(s, e);
    FactsReportTheEvent(s, e);
    ExpiresExactly(s.core, FactsOf(s, e), CoreSteps(states, steps)[i].maxAckHeight);
    hide SamplerSettled;
  }

  // ---- Runs ----

  // What every event of every run leaves: the packets tracked, and whether the sampler is app-limited.
  lemma EventsLeaveExactly(delay: nat, states: seq<System>, steps: seq<Step>, maxPackets: int, i: nat)
    requires IsRun(delay, states, steps) && IsStart(states[0], maxPackets) && i < |steps| && steps[i].Congestion?
    ensures |states| == |steps| + 1
    ensures var s, e, r := states[i], steps[i].e, states[i + 1];
            var notified := e.priorInFlight < Target(s.core, s.filter.best.sample, e.rttMin, 1.0);
            var end := if notified then s.sampler.lastSentPacket else s.sampler.endOfAppLimitedPhase;
            && (if s.core.gains.mode == ProbeRtt || r.core.gains.mode == ProbeRtt
                then r.sampler.isAppLimited && r.sampler.endOfAppLimitedPhase == s.sampler.lastSentPacket
                else
                  && r.sampler.endOfAppLimitedPhase == end
                  && (r.sampler.isAppLimited <==> (notified || s.sampler.isAppLimited) && !PassesPhase(s, e.acked, end)))
            && forall n :: n in r.sampler.packets.live <==> (n in s.sampler.packets.live && IsKept(e, n))
  {
    CoresRun(delay, states, steps, maxPackets);
    C.ModesAlwaysFit(Cores(states), CoreSteps(states, steps), maxPackets, i);
    var _, _ := RunProjectsToCore(delay, states, steps, maxPackets, i);
    hide IsStart, Sound, SentBy, C.IsRun, C.IsStart, C.ModeFits, Projects, AfterEvent, CanHandle, PassesPhase, Target, CoreStep;
    var s, e, now := states[i], steps[i].e, Now(steps, i);
    assert Enabled(s, steps[i], now) && states[i + 1] == Next(delay, s, steps[i], now);
    SentLater(s, now, e.time);
    hide IsRun;
    EventLimits(s, e);
    EventPrunes(s, e);
  }
}
