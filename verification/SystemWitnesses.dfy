// Runs of the whole sender, in the conservative profile, that show what can go wrong: an overshoot without a minimum
// RTT, a late acknowledgement whose A0 point is not that of the full list, and bytes credited twice.
module SystemWitnesses {
  import opened AckHeights
  import opened Options
  import opened PacketQueues
  import opened Rates
  import opened SamplerStates
  import opened SenderStates
  import opened SystemHeights
  import opened SystemLaws
  import opened SystemRuns
  import opened SystemSamples
  import opened WindowedFilters
  import S = SamplerRuns
  import H = SamplerHistory
  import C = SenderRuns

  // ---- Packets sent back to back at time 1 ----

  function Begin(maxPackets: int, packetBuffer: int): System {
    NewSystem(ConfigFor(Conservative), 1200, maxPackets, packetBuffer, 1200)
  }

  function Shot(n: nat): Step { Step.Send(Sending(1, 1200 * n, n, 1200, true, 0)) }

  function Packet(n: nat): Snapshot {
    Snapshot(1, 1200, 1200, 1, 1, SendState(true, false, 1200 * (n + 1), 0, 0, 1200 * (n + 1)))
  }

  // The sampler and the sender after n of them.
  function Flight(n: nat): Sampler {
    var s := NewSampler(BANDWIDTH_WINDOW);
    var unused := s.(overestimateAvoidance := true, heights := s.heights.(threshold := 2.0, reduceOnIncrease := true));
    if n == 0 then unused
    else
      unused.(totalBytesSent := 1200 * n, sentAtLastAcked := 1200, lastAckedSentTime := 1, lastAckedAckTime := 1,
              lastSentPacket := n - 1, packets := Packets(map k: nat | k < n :: Packet(k), n - 1),
              recent := RecentPoints(NO_POINT, AckPoint(1, 0)), candidates := [AckPoint(1, 0)])
  }

  function FlightCore(n: nat, maxPackets: int, packetBuffer: int): Core {
    var c := NewCore(ConfigFor(Conservative), 1200, maxPackets, packetBuffer);
    if n == 0 then c else c.(lastSent := n - 1, inFlight := 1200 * (n - 1), probe := Probe(0, false, true))
  }

  predicate InFlight(s: System, n: nat, maxPackets: int, packetBuffer: int) {
    s.sampler == Flight(n) && s.core == FlightCore(n, maxPackets, packetBuffer) && s.filter == Fresh(BANDWIDTH_WINDOW, 0)
  }

  lemma ShotTracks(n: nat)
    ensures AfterSent(Flight(n), 1, n, 1200, 1200 * n, true) == Flight(n + 1)
  {
    var sent := AfterSent(Flight(n), 1, n, 1200, 1200 * n, true);
    assert sent.packets.live == Flight(n + 1).packets.live;
  }

  lemma ShotAdvances(delay: nat, s: System, n: nat, maxPackets: int, packetBuffer: int)
    requires InFlight(s, n, maxPackets, packetBuffer) && s.pacer.Valid()
    ensures Enabled(s, Shot(n), if n == 0 then 0 else 1)
    ensures InFlight(Next(delay, s, Shot(n), if n == 0 then 0 else 1), n + 1, maxPackets, packetBuffer)
  {
    ShotTracks(n);
    hide AfterSent, Flight, Pacers.AfterSend, PacerBandwidth;
    assert s.sampler == Flight(n) && 0 <= s.core.rtt.min && s.core.lastSent == n - 1;
  }

  // n packets sent back to back make a run.
  lemma {:induction false} FlightRun(delay: nat, maxPackets: int, packetBuffer: int, n: nat) returns (states: seq<System>, steps: seq<Step>)
    requires INITIAL_WINDOW_PACKETS <= maxPackets
    ensures IsRun(delay, states, steps) && IsStart(states[0], maxPackets) && states[0] == Begin(maxPackets, packetBuffer)
    ensures |steps| == n && |states| == n + 1 && InFlight(states[n], n, maxPackets, packetBuffer) && Now(steps, n) == if n == 0 then 0 else 1
    ensures forall i | 0 <= i < n :: steps[i] == Shot(i)
  {
    hide IsRun, IsStart, Begin, InFlight, Next, Enabled, Sound, SentBy, C.IsRun, C.IsStart, Projects;
    if n == 0 {
      states, steps := [Begin(maxPackets, packetBuffer)], [];
      BeginsRun(delay, Begin(maxPackets, packetBuffer));
      BeginsInFlight(maxPackets, packetBuffer);
    } else {
      states, steps := FlightRun(delay, maxPackets, packetBuffer, n - 1);
      var _, _ := RunProjectsToCore(delay, states, steps, maxPackets, n - 1);
      PacerIsValid(states[n - 1]);
      ShotAdvances(delay, states[n - 1], n - 1, maxPackets, packetBuffer);
      states, steps := Extended(delay, states, steps, maxPackets, Shot(n - 1));
    }
  }

  lemma PacerIsValid(s: System)
    requires Sound(s)
    ensures s.pacer.Valid()
  {
  }

  lemma BeginsRun(delay: nat, s: System)
    ensures IsRun(delay, [s], [])
  {
  }

  lemma BeginsInFlight(maxPackets: int, packetBuffer: int)
    requires INITIAL_WINDOW_PACKETS <= maxPackets
    ensures InFlight(Begin(maxPackets, packetBuffer), 0, maxPackets, packetBuffer) && IsStart(Begin(maxPackets, packetBuffer), maxPackets)
  {
  }

  // A run with one more step.
  lemma Extended(delay: nat, states: seq<System>, steps: seq<Step>, maxPackets: int, step: Step)
    returns (all: seq<System>, allSteps: seq<Step>)
    requires IsRun(delay, states, steps) && IsStart(states[0], maxPackets) && Enabled(states[|steps|], step, Now(steps, |steps|))
    ensures |states| == |steps| + 1
    ensures all == states + [Next(delay, states[|steps|], step, Now(steps, |steps|))] && allSteps == steps + [step]
    ensures IsRun(delay, all, allSteps) && IsStart(all[0], maxPackets)
    ensures Now(allSteps, |allSteps|) == TimeOf(step, Now(steps, |steps|))
  {
    hide Next, Enabled, IsStart;
    ExtendSystemRun(delay, states, steps, step);
    ClockIsKept(steps, step, |steps|);
    all, allSteps := states + [Next(delay, states[|steps|], step, Now(steps, |steps|))], steps + [step];
  }

  // ---- Events that acknowledge one tracked packet ----

  // The sampler when the loop of the event begins.
  function BeforeLoop(s: System, e: Event): Sampler { AfterLosses(SamplerNotified(s, e), e.lost).0 }

  lemma {:induction false} LossesAdd(s: Sampler, lost: seq<LostPacket>)
    ensures AfterLosses(s, lost).0 == s.(totalBytesLost := s.totalBytesLost + LostBytes(lost))
  {
    if lost != [] { LossesAdd(s, lost[..|lost| - 1]); }
  }

  lemma BeforeLoopIs(s: System, e: Event)
    ensures var b := BeforeLoop(s, e);
            b == s.sampler.(isAppLimited := b.isAppLimited, endOfAppLimitedPhase := b.endOfAppLimitedPhase,
                            totalBytesLost := s.sampler.totalBytesLost + LostBytes(e.lost))
  {
    hide Target;
    LossesAdd(SamplerNotified(s, e), e.lost);
    hide AfterLosses;
  }

  lemma OneTallied(s: Sampler, time: int, p: AckedPacket)
    ensures AfterAcks(s, time, [p]) == Tallied(Tally(s, NO_EVENT_SAMPLE, NO_STATE, 0), time, p.packetNumber)
  {
    assert [p][..0] == [];
    assert AfterAcks(s, time, [p][..0]) == Tally(s, NO_EVENT_SAMPLE, NO_STATE, 0);
    hide Tallied;
  }

  // What such an event leaves of the sampler, apart from its tracker, its app-limited phase and its candidates.
  lemma EventSampler(s: System, e: Event)
    requires |e.acked| == 1
    ensures var base, r := AfterAck(BeforeLoop(s, e), e.time, e.acked[0].packetNumber), SamplerSettled(s, e);
            r == base.(isAppLimited := r.isAppLimited, endOfAppLimitedPhase := r.endOfAppLimitedPhase, heights := r.heights,
                       candidates := r.candidates, ackedAfterLastEvent := r.ackedAfterLastEvent)
    ensures SamplerSettled(s, e).candidates == SamplerFed(s, e).0.candidates
  {
    assert e.acked == [e.acked[0]];
    OneTallied(BeforeLoop(s, e), e.time, e.acked[0]);
    FedSampler(s, e);
    SettledSampler(s, e);
    hide SamplerFed, SamplerSettled, AfterAck, AfterAcks, AckSample, BeforeLoop;
  }

  lemma FedSampler(s: System, e: Event)
    requires e.acked != []
    ensures var base, r := AfterAcks(BeforeLoop(s, e), e.time, e.acked).sampler, SamplerFed(s, e).0;
            r == base.(heights := r.heights, candidates := r.candidates, ackedAfterLastEvent := r.ackedAfterLastEvent)
  {
    hide AfterAcks, Observed, SamplerNotified, AfterLosses, LastState, RoundOf, EndBandwidth;
  }

  lemma SettledSampler(s: System, e: Event)
    ensures var base, r := SamplerFed(s, e).0, SamplerSettled(s, e);
            r == base.(isAppLimited := r.isAppLimited, endOfAppLimitedPhase := r.endOfAppLimitedPhase, heights := r.heights)
  {
    hide SamplerFed, FactsOf, ExpiresHeights, ProbesRtt, RoundOf;
  }

  // What such an event reports.
  lemma EventReport(s: System, e: Event)
    requires |e.acked| == 1 && AckSample(BeforeLoop(s, e), e.time, e.acked[0].packetNumber).state.isValid
    requires AckSample(BeforeLoop(s, e), e.time, e.acked[0].packetNumber).rtt != 0
    ensures var sample, r := AckSample(BeforeLoop(s, e), e.time, e.acked[0].packetNumber), SamplerFed(s, e).1;
            && r.maxBandwidth == Max(0, sample.bandwidth) && r.rtt == Min(INF_RTT, sample.rtt)
            && (0 < sample.bandwidth ==> r.isAppLimited == sample.state.isAppLimited)
            && (e.lost == [] ==> r.lastPacketSendState == sample.state)
  {
    assert e.acked == [e.acked[0]];
    OneTallied(BeforeLoop(s, e), e.time, e.acked[0]);
    NoLossNoState(SamplerNotified(s, e));
    hide AfterAcks, AckSample, AfterAck, AfterEventEnd, SamplerNotified, AfterLosses, RoundOf, EndBandwidth;
  }

  lemma NoLossNoState(s: Sampler)
    ensures AfterLosses(s, []).1 == NO_STATE
  {
  }

  // ---- The first packet of three, acknowledged at time 2 ----

  const EARLY_ACK := Event(3600, 2, [AckedPacket(0, 1200)], [], 0, 0)
  const EARLY_RATE := 9_600_000_000_000

  lemma EarlySample(s: System)
    requires s.sampler == Flight(3)
    ensures AckSample(BeforeLoop(s, EARLY_ACK), 2, 0) == Sample(EARLY_RATE, 1, INF_BANDWIDTH, Packet(0).state)
  {
    BeforeLoopIs(s, EARLY_ACK);
    hide BeforeLoop;
  }

  lemma EarlyAckCounts(s: System)
    requires s.sampler == Flight(3)
    ensures var r := AfterAck(BeforeLoop(s, EARLY_ACK), 2, 0);
            && r.packets == Flight(3).packets && r.overestimateAvoidance && r.lastSentPacket == 2 && r.lastAckedSentTime == 1
            && r.totalBytesAcked == 1200 && r.totalBytesLost == 0 && r.totalBytesSent == 3600
            && r.candidates == [AckPoint(1, 0)] && r.recent == RecentPoints(AckPoint(1, 0), AckPoint(2, 1200))
  {
    BeforeLoopIs(s, EARLY_ACK);
    hide BeforeLoop;
  }

  // The event starts the first epoch, and so saves a second candidate.
  lemma EarlyAckSaves(s: System)
    requires s.sampler == Flight(3)
    ensures SamplerFed(s, EARLY_ACK).0.candidates == [AckPoint(1, 0), AckPoint(2, 1200)]
  {
    EarlyAckCounts(s);
    OneTallied(BeforeLoop(s, EARLY_ACK), 2, AckedPacket(0, 1200));
    FedHeights(s, EARLY_ACK);
    FirstEpoch(s.sampler.heights, Reported(s, EARLY_ACK));
    hide SamplerFed, Reported, BeforeLoop, AfterAck, AfterAcks, AckSample, Observed;
  }

  lemma FirstEpoch(h: Heights, ack: AckEvent)
    requires h.epochStart == 0
    ensures Observed(h, ack).1 == 0
  {
    hide Reduced, ForcesEpoch, NewEvent;
  }

  // What is left of the whole.
  predicate Answered(s: System) {
    && s.sampler.packets == Flight(3).packets && s.sampler.candidates == [AckPoint(1, 0), AckPoint(2, 1200)]
    && s.sampler.overestimateAvoidance && s.sampler.lastSentPacket == 2 && s.sampler.lastAckedSentTime == 1
    && s.sampler.totalBytesAcked == 1200 && s.sampler.totalBytesLost == 0
  }

  lemma EarlyAckAnswers(s: System, maxPackets: int, packetBuffer: int)
    requires InFlight(s, 3, maxPackets, packetBuffer) && CanHandle(s, EARLY_ACK)
    ensures Answered(AfterEvent(s, EARLY_ACK))
  {
    EarlyAckCounts(s);
    EarlyAckSaves(s);
    EventSampler(s, EARLY_ACK);
    NothingIsPruned(Flight(3).packets, -2);
    hide SamplerSettled, SamplerFed, BeforeLoop, AfterAck, AfterFacts, FilterFed, FactsOf, CanHandle, InFlight;
  }

  lemma NothingIsPruned(packets: Packets<Snapshot>, n: int)
    requires packets.live != map[] && forall k | k in packets.live :: n <= k
    ensures packets.RemovedUpTo(n) == packets
  {
    assert From(packets.live, n) == packets.live;
  }

  lemma EarlyFacts(s: System, maxPackets: int, packetBuffer: int)
    requires InFlight(s, 3, maxPackets, packetBuffer)
    ensures FilterFed(s, EARLY_ACK) == ResetTo(Fresh(BANDWIDTH_WINDOW, 0), Entry(EARLY_RATE, 1))
    ensures var f := FactsOf(s, EARLY_ACK);
            && f.time == 2 && f.lastAcked == Some(0) && !f.hasLosses && f.rttMin == 0 && f.bandwidth == EARLY_RATE
            && f.sendState == Packet(0).state && f.rtt == 1 && f.bytesLost == 0
  {
    EarlySample(s);
    EarlyAckCounts(s);
    EventReport(s, EARLY_ACK);
    OneTallied(BeforeLoop(s, EARLY_ACK), 2, AckedPacket(0, 1200));
    FedSampler(s, EARLY_ACK);
    assert RoundOf(s.core, EARLY_ACK) == 1;
    hide SamplerFed, BeforeLoop, AfterAck, AckSample, AfterAcks, RoundOf, Flight;
  }

  // ---- An overshoot without a minimum RTT ----

  // The sender paced by that sample.
  predicate Quick(c: Core) {
    && c.config == ConfigFor(Conservative) && c.pacing == Pacing(21_600_000_000_000, true, 0)
    && !c.growth.full && c.growth.hasNoAppLimited && c.gains.mode == Startup && c.rtt == Rtt(1, 2)
    && !c.probe.exitingQuiescence && c.rounds.end == 2 && c.rounds.count == 1 && c.lastSent == 2
  }

  lemma EarlyAckPaces(c: Core, f: Facts, h: int, maxPackets: int, packetBuffer: int)
    requires c == FlightCore(3, maxPackets, packetBuffer)
    requires f.time == 2 && f.lastAcked == Some(0) && !f.hasLosses && f.rttMin == 0 && f.bandwidth == EARLY_RATE
    requires f.sendState == Packet(0).state && f.rtt == 1 && f.bytesLost == 0
    ensures CanPace(Modelled(c, f), f) && Quick(AfterFacts(c, f, h))
  {
    hide WindowUpdated, RecoveryWindowUpdated;
  }

  // Ten seconds later the minimum RTT expires, PROBE_RTT brings the gain down to 1, and a packet is lost.
  lemma LateLossPanics(c: Core, f: Facts)
    requires Quick(c) && f.time == 10_000_000_003 && f.lastAcked == Some(1) && f.rttMin == 0
    requires 0 < f.bandwidth <= EARLY_RATE && f.rtt != INF_RTT && f.bytesLost == 1200
    ensures !CanPace(Modelled(c, f), f)
  {
    hide Target;
  }

  const LATE_LOSS := Event(2400, 10_000_000_003, [AckedPacket(1, 1200)], [LostPacket(2, 1200)], 0, 0)

  lemma LateSample(s: System)
    requires Answered(s)
    ensures var sample := AckSample(BeforeLoop(s, LATE_LOSS), LATE_LOSS.time, 1);
            sample.state.isValid && sample.bandwidth == 1912 && sample.rtt == 10_000_000_002
  {
    BeforeLoopIs(s, LATE_LOSS);
    hide BeforeLoop;
  }

  lemma LateLossCounts(s: System)
    requires Answered(s)
    ensures SamplerFed(s, LATE_LOSS).0.totalBytesLost == 1200
  {
    FedSampler(s, LATE_LOSS);
    OneTallied(BeforeLoop(s, LATE_LOSS), LATE_LOSS.time, AckedPacket(1, 1200));
    BeforeLoopIs(s, LATE_LOSS);
    AckKeepsRest(BeforeLoop(s, LATE_LOSS), LATE_LOSS.time, 1);
    assert LATE_LOSS.lost[..0] == [] && LostBytes(LATE_LOSS.lost[..0]) == 0;
    hide SamplerFed, BeforeLoop, AfterAck, AckSample, AfterAcks;
  }

  lemma AckKeepsRest(s: Sampler, time: int, packetNumber: int)
    ensures AfterAck(s, time, packetNumber).totalBytesLost == s.totalBytesLost
    ensures AfterAck(s, time, packetNumber).totalBytesSent == s.totalBytesSent
    ensures AfterAck(s, time, packetNumber).totalBytesNeutered == s.totalBytesNeutered
    ensures AfterAck(s, time, packetNumber).packets == s.packets
    ensures AfterAck(s, time, packetNumber).overestimateAvoidance == s.overestimateAvoidance
    ensures AfterAck(s, time, packetNumber).totalBytesAcked
            == s.totalBytesAcked + if packetNumber in s.packets.live then s.packets.live[packetNumber].size else 0
  {
    hide DroppedByChoice;
  }

  lemma LateFacts(s: System)
    requires Answered(s) && s.filter == ResetTo(Fresh(BANDWIDTH_WINDOW, 0), Entry(EARLY_RATE, 1)) && Quick(s.core)
    ensures var f := FactsOf(s, LATE_LOSS);
            && f.time == 10_000_000_003 && f.lastAcked == Some(1) && f.rttMin == 0
            && 0 < f.bandwidth <= EARLY_RATE && f.rtt != INF_RTT && f.bytesLost == 1200
  {
    LateSample(s);
    EventReport(s, LATE_LOSS);
    LateLossCounts(s);
    assert RoundOf(s.core, LATE_LOSS) == 1;
    hide SamplerFed, BeforeLoop, AckSample, RoundOf;
  }

  lemma EarlyAckIsHandled(s: System, maxPackets: int, packetBuffer: int)
    requires InFlight(s, 3, maxPackets, packetBuffer)
    ensures CanHandle(s, EARLY_ACK) && s.core.lastSent == 2
    ensures Quick(AfterEvent(s, EARLY_ACK).core) && AfterEvent(s, EARLY_ACK).filter == ResetTo(Fresh(BANDWIDTH_WINDOW, 0), Entry(EARLY_RATE, 1))
  {
    EarlyFacts(s, maxPackets, packetBuffer);
    hide FactsOf, FilterFed, SamplerSettled, Modelled, AfterFacts, CanPace, Quick, Flight;
    EarlyAckPaces(s.core, FactsOf(s, EARLY_ACK), SamplerSettled(s, EARLY_ACK).heights.filter.best.sample.extraAcked, maxPackets, packetBuffer);
  }

  lemma LateEventPanics(s: System)
    requires Answered(s) && Quick(s.core) && s.filter == ResetTo(Fresh(BANDWIDTH_WINDOW, 0), Entry(EARLY_RATE, 1))
    ensures !CanHandle(s, LATE_LOSS) && s.core.lastSent == 2
  {
    LateFacts(s);
    LateLossPanics(s.core, FactsOf(s, LATE_LOSS));
    hide FactsOf, Modelled, CanPace;
  }

  // A handled event whose packets were sent is a step, at any later time.
  lemma EventEnabled(delay: nat, s: System, e: Event, now: int)
    requires CanHandle(s, e) && now <= e.time && (e.acked != [] ==> 0 <= LastAcked(e).value <= s.core.lastSent)
    ensures Enabled(s, Step.Congestion(e), now) && Next(delay, s, Step.Congestion(e), now) == AfterEvent(s, e)
  {
    hide CanHandle, AfterEvent;
  }

  // A run of the whole that ends before an event on which the source divides by zero: the connection has no minimum
  // RTT all along, and the event acknowledges one sent packet and reports another lost.
  lemma OvershootWithoutRttPanics(delay: nat, maxPackets: int, packetBuffer: int) returns (states: seq<System>, steps: seq<Step>)
    requires INITIAL_WINDOW_PACKETS <= maxPackets
    ensures IsRun(delay, states, steps) && IsStart(states[0], maxPackets) && states[0] == Begin(maxPackets, packetBuffer)
    ensures steps == [Shot(0), Shot(1), Shot(2), Step.Congestion(EARLY_ACK)]
    ensures Now(steps, 4) <= LATE_LOSS.time && states[4].core.lastSent == 2
    ensures !CanHandle(states[4], LATE_LOSS)
  {
    hide IsRun, IsStart, Begin, InFlight, Next, Enabled, FlightCore, Answered, Quick, CanPace, Modelled, AfterFacts,
         CanHandle, Flight;
    states, steps := FlightRun(delay, maxPackets, packetBuffer, 3);
    var s := states[3];
    EarlyAckIsHandled(s, maxPackets, packetBuffer);
    EarlyAckAnswers(s, maxPackets, packetBuffer);
    EventEnabled(delay, s, EARLY_ACK, 1);
    states, steps := Extended(delay, states, steps, maxPackets, Step.Congestion(EARLY_ACK));
    LateEventPanics(states[4]);
  }

  // ---- Bytes credited twice ----

  // What an event with one acknowledged packet does to totals and packets.
  lemma EventTotals(s: System, e: Event)
    requires CanHandle(s, e) && |e.acked| == 1 && e.acked[0].packetNumber in s.sampler.packets.live
    ensures var r := AfterEvent(s, e).sampler;
            && r.totalBytesAcked == s.sampler.totalBytesAcked + s.sampler.packets.live[e.acked[0].packetNumber].size
            && r.totalBytesLost == s.sampler.totalBytesLost + LostBytes(e.lost)
            && r.totalBytesSent == s.sampler.totalBytesSent && r.totalBytesNeutered == s.sampler.totalBytesNeutered
            && r.packets == s.sampler.packets.RemovedUpTo(LeastUnacked(e))
            && r.overestimateAvoidance == s.sampler.overestimateAvoidance
  {
    EventSampler(s, e);
    BeforeLoopIs(s, e);
    AckKeepsRest(BeforeLoop(s, e), e.time, e.acked[0].packetNumber);
    hide SamplerSettled, SamplerFed, BeforeLoop, AfterAck, Modelled, AfterFacts, FilterFed, FactsOf, CanPace;
  }

  const LOSSY_ACK := Event(2400, 2, [AckedPacket(1, 1200)], [LostPacket(0, 1200)], 1, 0)
  const SPURIOUS_LOSS := Event(1200, 3, [AckedPacket(0, 1200)], [], 1, 0)

  lemma LossyAckCounts(s: System)
    requires CanHandle(s, LOSSY_ACK) && s.sampler == Flight(2)
    ensures var r := AfterEvent(s, LOSSY_ACK).sampler;
            && r.totalBytesAcked == 1200 && r.totalBytesLost == 1200 && r.totalBytesSent == 2400 && r.totalBytesNeutered == 0
            && r.packets == Flight(2).packets
  {
    EventTotals(s, LOSSY_ACK);
    NothingIsPruned(Flight(2).packets, -1);
    assert LOSSY_ACK.lost[..0] == [] && LostBytes(LOSSY_ACK.lost[..0]) == 0;
    hide AfterEvent, CanHandle;
  }

  lemma SpuriousLossCounts(s: System)
    requires CanHandle(s, SPURIOUS_LOSS) && s.sampler.packets == Flight(2).packets
    ensures H.Credited(AfterEvent(s, SPURIOUS_LOSS).sampler) == H.Credited(s.sampler) + 1200
    ensures AfterEvent(s, SPURIOUS_LOSS).sampler.totalBytesSent == s.sampler.totalBytesSent
  {
    EventTotals(s, SPURIOUS_LOSS);
    hide AfterEvent, CanHandle;
  }

  lemma FlightSent(s: System, n: nat, maxPackets: int, packetBuffer: int)
    requires InFlight(s, n, maxPackets, packetBuffer) && 0 < n
    ensures s.core.lastSent == n - 1 && s.sampler == Flight(n)
  {
  }

  // A run extended by an event that reports a sent packet as acknowledged, while there is a minimum RTT.
  lemma ExtendedByEvent(delay: nat, states: seq<System>, steps: seq<Step>, maxPackets: int, e: Event)
    returns (all: seq<System>, allSteps: seq<Step>)
    requires IsRun(delay, states, steps) && IsStart(states[0], maxPackets)
    requires e.acked != [] && 0 < e.rttMin && Now(steps, |steps|) <= e.time && 0 <= LastAcked(e).value <= states[|steps|].core.lastSent
    ensures |states| == |steps| + 1 && CanHandle(states[|steps|], e)
    ensures all == states + [AfterEvent(states[|steps|], e)] && allSteps == steps + [Step.Congestion(e)]
    ensures IsRun(delay, all, allSteps) && IsStart(all[0], maxPackets) && Now(allSteps, |allSteps|) == e.time
  {
    hide Next, Enabled, IsStart, CanHandle, AfterEvent, FactsOf, Modelled, C.CorrectsOvershoot, ConfigFor;
    EventsAreHandledUnlessOvershootLacksRtt(delay, states, steps, maxPackets, |steps|, e);
    EventEnabled(delay, states[|steps|], e, Now(steps, |steps|));
    all, allSteps := Extended(delay, states, steps, maxPackets, Step.Congestion(e));
  }

  // Without resolving packets at most once the balance fails, in a run of the whole: a packet is reported lost by an
  // event that acknowledges the next one, so it stays tracked, and is acknowledged after all.
  lemma LateAckBreaksConservation(delay: nat, maxPackets: int, packetBuffer: int) returns (states: seq<System>, steps: seq<Step>)
    requires INITIAL_WINDOW_PACKETS <= maxPackets
    ensures IsRun(delay, states, steps) && IsStart(states[0], maxPackets)
    ensures steps == [Shot(0), Shot(1), Step.Congestion(LOSSY_ACK), Step.Congestion(SPURIOUS_LOSS)]
    ensures H.Credited(states[4].sampler) > states[4].sampler.totalBytesSent
  {
    hide IsRun, IsStart, Begin, InFlight, CanHandle, AfterEvent, Flight, Now;
    states, steps := FlightRun(delay, maxPackets, packetBuffer, 2);
    FlightSent(states[2], 2, maxPackets, packetBuffer);
    states, steps := ExtendedByEvent(delay, states, steps, maxPackets, LOSSY_ACK);
    LossyAckCounts(states[2]);
    LastSentStays(states[2], LOSSY_ACK);
    states, steps := ExtendedByEvent(delay, states, steps, maxPackets, SPURIOUS_LOSS);
    SpuriousLossCounts(states[3]);
  }

  lemma LastSentStays(s: System, e: Event)
    requires CanHandle(s, e)
    ensures AfterEvent(s, e).core.lastSent == s.core.lastSent
  {
    C.ModelKeepsWindows(s.core, FactsOf(s, e));
    hide Modelled, PacingUpdated, WindowUpdated, RecoveryWindowUpdated, FilterFed, FactsOf, CanPace, SamplerSettled;
  }

  // ---- A late acknowledgement ----

  const SHOT_AFTER := Sending(2, 2400, 3, 1200, true, 1)
  const SECOND_ACK := Event(3600, 3, [AckedPacket(3, 1200)], [], 1, 0)
  const LATE_ACK := Event(2400, 4, [AckedPacket(1, 1200)], [], 1, 0)

  // A fourth packet is sent after the early acknowledgement, so its snapshot counts 1200 bytes.
  predicate Reshot(s: Sampler) {
    && s.candidates == [AckPoint(1, 0), AckPoint(2, 1200)] && s.overestimateAvoidance
    && 1 in s.packets.live && s.packets.live[1] == Packet(1)
    && 3 in s.packets.live && s.packets.live[3].lastAckedSentTime == 1 && s.packets.live[3].state.totalBytesAcked == 1200
  }

  lemma ShotAfterTracks(s: System)
    requires Answered(s)
    ensures Reshot(AfterSent(s.sampler, 2, 3, 1200, 2400, true))
  {
  }

  // Its acknowledgement drops the first candidate.
  lemma SecondAckDrops(s: System)
    requires Reshot(s.sampler) && s.sampler.ackedAfterLastEvent == s.sampler.totalBytesAcked && CanHandle(s, SECOND_ACK)
    ensures var r := AfterEvent(s, SECOND_ACK).sampler;
            && r.candidates != [] && r.candidates[0] == AckPoint(2, 1200) && r.overestimateAvoidance
            && 1 in r.packets.live && r.packets.live[1] == Packet(1)
  {
    EventTotals(s, SECOND_ACK);
    EventSampler(s, SECOND_ACK);
    DroppedBySecondAck(s);
    OneTallied(BeforeLoop(s, SECOND_ACK), 3, AckedPacket(3, 1200));
    FedHeights(s, SECOND_ACK);
    hide SamplerSettled, SamplerFed, BeforeLoop, AfterAck, AfterAcks, AckSample, Reported, Observed, AfterFacts, FilterFed, FactsOf,
         CanHandle, LoopTally;
    assert LoopTally(s, SECOND_ACK).sampler == AfterAck(BeforeLoop(s, SECOND_ACK), 3, 3) by { LoopIsTally(s, SECOND_ACK); }
  }

  lemma LoopIsTally(s: System, e: Event)
    requires |e.acked| == 1
    ensures LoopTally(s, e).sampler == AfterAck(BeforeLoop(s, e), e.time, e.acked[0].packetNumber)
  {
    assert e.acked == [e.acked[0]];
    OneTallied(BeforeLoop(s, e), e.time, e.acked[0]);
    hide AfterAcks, AckSample, AfterAck;
  }

  lemma DroppedBySecondAck(s: System)
    requires Reshot(s.sampler)
    ensures AfterAck(BeforeLoop(s, SECOND_ACK), 3, 3).candidates == [AckPoint(2, 1200)]
  {
    BeforeLoopIs(s, SECOND_ACK);
    hide BeforeLoop;
  }

  // The point saved when the sender left idleness stays the first one saved.
  lemma {:induction false} FirstSavedInRun(delay: nat, states: seq<System>, steps: seq<Step>, maxPackets: int, i: nat)
    requires IsRun(delay, states, steps) && IsStart(states[0], maxPackets) && 1 <= i <= |steps|
    requires states[0].sampler == Flight(0) && steps[0] == Shot(0)
    requires forall n | 1 <= n < i && steps[n].Send? :: steps[n].p.bytesInFlight != 0
    ensures |states| == |steps| + 1 && AllReport(steps, i)
    ensures var all := H.SavedBy(states[0].sampler, SamplerOps(states, steps, i)).all; all != [] && all[0] == AckPoint(1, 0)
  {
    hide IsRun, IsStart, Next, Enabled, AllReport, StepOps, H.SavedBy, Flight, Now, S.Run, S.Ordered, S.Unused;
    RunProjectsToSampler(delay, states, steps, maxPackets, i);
    RunIsLonger(delay, states, steps);
    if i == 1 {
      FirstOps(states, steps);
    } else {
      FirstSavedInRun(delay, states, steps, maxPackets, i - 1);
      StepReports(steps, i);
      StepOpsKeepFirst(states[i - 1], steps[i - 1]);
      H.FirstSavedStays(states[0].sampler, SamplerOps(states, steps, i - 1), StepOps(states[i - 1], steps[i - 1]));
    }
  }

  lemma RunIsLonger(delay: nat, states: seq<System>, steps: seq<Step>)
    requires IsRun(delay, states, steps)
    ensures |states| == |steps| + 1
  {
  }

  lemma FirstOps(states: seq<System>, steps: seq<Step>)
    requires 1 <= |steps| < |states| && AllReport(steps, 1) && steps[0] == Shot(0) && states[0].sampler == Flight(0)
    ensures var all := H.SavedBy(states[0].sampler, SamplerOps(states, steps, 1)).all; all != [] && all[0] == AckPoint(1, 0)
  {
    assert SamplerOps(states, steps, 1) == SamplerOps(states, steps, 0) + StepOps(states[0], steps[0]);
    assert SamplerOps(states, steps, 0) == [];
    FirstShotSaves();
    hide Flight, H.SavedBy;
  }

  lemma StepReports(steps: seq<Step>, i: nat)
    requires 0 < i <= |steps| && AllReport(steps, i)
    ensures steps[i - 1].Congestion? ==> steps[i - 1].e.acked != [] || steps[i - 1].e.lost != []
  {
  }

  lemma FirstShotSaves()
    ensures H.SavedBy(Flight(0), [S.Sent(1, 0, 1200, 0, true)]).all == [AckPoint(1, 0)]
  {
    var op := S.Sent(1, 0, 1200, 0, true);
    assert [op][..0] == [];
    assert S.Run(Flight(0), [op][..0]) == Flight(0);
    ShotTracks(0);
    hide AfterSent;
  }

  lemma StepOpsKeepFirst(s: System, step: Step)
    requires step.Congestion? ==> step.e.acked != [] || step.e.lost != []
    requires step.Send? ==> step.p.bytesInFlight != 0
    ensures forall op | op in StepOps(s, step) :: H.KeepsFirst(op)
  {
    if step.Congestion? { EventIsSamplerRun(s, step.e); }
    hide EventOps;
  }

  // The run up to the fourth packet.
  lemma LateAckRunBegins(delay: nat, maxPackets: int, packetBuffer: int) returns (states: seq<System>, steps: seq<Step>)
    requires INITIAL_WINDOW_PACKETS <= maxPackets
    ensures IsRun(delay, states, steps) && IsStart(states[0], maxPackets) && states[0] == Begin(maxPackets, packetBuffer)
    ensures steps == [Shot(0), Shot(1), Shot(2), Step.Congestion(EARLY_ACK)] && |states| == 5 && Now(steps, 4) == 2
    ensures Answered(states[4]) && states[4].core.lastSent == 2
  {
    hide IsRun, IsStart, Begin, InFlight, Next, Enabled, FlightCore, Answered, Quick, CanPace, Modelled, AfterFacts, CanHandle, Flight;
    states, steps := FlightRun(delay, maxPackets, packetBuffer, 3);
    var s := states[3];
    EarlyAckIsHandled(s, maxPackets, packetBuffer);
    EarlyAckAnswers(s, maxPackets, packetBuffer);
    LastSentStays(s, EARLY_ACK);
    EventEnabled(delay, s, EARLY_ACK, 1);
    states, steps := Extended(delay, states, steps, maxPackets, Step.Congestion(EARLY_ACK));
  }

  lemma ShotAfterIsEnabled(delay: nat, s: System)
    requires Answered(s) && s.core.lastSent == 2 && Sound(s) && 0 <= s.core.rtt.min
    ensures Enabled(s, Step.Send(SHOT_AFTER), 2)
    ensures Reshot(Next(delay, s, Step.Send(SHOT_AFTER), 2).sampler) && Next(delay, s, Step.Send(SHOT_AFTER), 2).core.lastSent == 3
  {
    ShotAfterTracks(s);
    hide AfterSent, Pacers.AfterSend, PacerBandwidth, Answered, WholeRates;
  }

  lemma LateAckRun(delay: nat, maxPackets: int, packetBuffer: int) returns (states: seq<System>, steps: seq<Step>)
    requires INITIAL_WINDOW_PACKETS <= maxPackets
    ensures IsRun(delay, states, steps) && IsStart(states[0], maxPackets) && states[0] == Begin(maxPackets, packetBuffer)
    ensures steps == [Shot(0), Shot(1), Shot(2), Step.Congestion(EARLY_ACK), Step.Send(SHOT_AFTER), Step.Congestion(SECOND_ACK),
                      Step.Congestion(LATE_ACK)]
    ensures |states| == 8
    ensures var r := states[6].sampler;
            && r.candidates != [] && r.candidates[0] == AckPoint(2, 1200) && r.overestimateAvoidance
            && 1 in r.packets.live && r.packets.live[1] == Packet(1)
  {
    hide IsRun, IsStart, Begin, Next, Enabled, Answered, CanHandle, Now, Reshot, Sound, SentBy, Projects, C.IsRun, C.IsStart,
         HeightsSound, Packet, AfterEvent;
    states, steps := LateAckRunBegins(delay, maxPackets, packetBuffer);
    var _, _ := RunProjectsToCore(delay, states, steps, maxPackets, 4);
    MinRttIsNatural(delay, states, steps, maxPackets, 4);
    ShotAfterIsEnabled(delay, states[4]);
    states, steps := Extended(delay, states, steps, maxPackets, Step.Send(SHOT_AFTER));
    HeightsAreAlwaysSound(delay, states, steps, maxPackets, 5);
    NothingUnreported(states[5].sampler, Now(steps, 5));
    var s := states[5];
    states, steps := ExtendedByEvent(delay, states, steps, maxPackets, SECOND_ACK);
    SecondAckDrops(s);
    LastSentStays(s, SECOND_ACK);
    states, steps := ExtendedByEvent(delay, states, steps, maxPackets, LATE_ACK);
  }

  lemma NothingUnreported(s: Sampler, now: int)
    requires HeightsSound(s, now)
    ensures s.ackedAfterLastEvent == s.totalBytesAcked
  {
  }

  lemma LateAckLoop(s: System)
    requires 1 in s.sampler.packets.live && s.sampler.packets.live[1] == Packet(1) && s.sampler.overestimateAvoidance
    requires s.sampler.candidates != [] && s.sampler.candidates[0] == AckPoint(2, 1200)
    ensures var r := LoopSampler(s, LATE_ACK, 0);
            Asks(r, 1) && H.ArgumentOf(r, 1) == 0 && r.candidates[0] == AckPoint(2, 1200)
  {
    BeforeLoopIs(s, LATE_ACK);
    assert LATE_ACK.acked[..0] == [];
    hide SamplerNotified, AfterLosses;
  }

  lemma FirstSavedAtLateAck(delay: nat, states: seq<System>, steps: seq<Step>, maxPackets: int)
    requires IsRun(delay, states, steps) && IsStart(states[0], maxPackets) && |steps| == 7 && |states| == 8
    requires states[0].sampler == Flight(0) && steps[0] == Shot(0) && steps[6] == Step.Congestion(LATE_ACK)
    requires forall n | 1 <= n < 6 && steps[n].Send? :: steps[n].p.bytesInFlight != 0
    ensures AllReport(steps, 6)
    ensures var all := H.SavedBy(states[0].sampler, OpsUpTo(states, steps, 6, 0)).all; all != [] && all[0] == AckPoint(1, 0)
  {
    hide IsRun, IsStart, H.SavedBy, AllReport, Flight;
    FirstSavedInRun(delay, states, steps, maxPackets, 6);
    LoopIsRun(states[6], LATE_ACK, 0);
    LoopKeepsFirst(LoopOps(states[6], LATE_ACK, 0));
    hide LoopOps;
    H.FirstSavedStays(states[0].sampler, SamplerOps(states, steps, 6), LoopOps(states[6], LATE_ACK, 0));
  }

  lemma FlightAvoids()
    ensures Flight(0).overestimateAvoidance
  {
  }

  lemma LoopKeepsFirst(ops: seq<S.Op>)
    requires S.NoSends(ops)
    ensures forall op | op in ops :: H.KeepsFirst(op)
  {
  }

  lemma BeginsUnused(maxPackets: int, packetBuffer: int)
    ensures Begin(maxPackets, packetBuffer).sampler == Flight(0)
  {
  }

  // In a run of the whole, packet 1 is acknowledged after packet 3: the A0 point it is given counts 1200 bytes, where
  // the point of the full list counts none.
  lemma LateAckIsAnsweredWrongly(delay: nat, maxPackets: int, packetBuffer: int) returns (states: seq<System>, steps: seq<Step>)
    requires INITIAL_WINDOW_PACKETS <= maxPackets
    ensures IsRun(delay, states, steps) && IsStart(states[0], maxPackets)
    ensures steps == [Shot(0), Shot(1), Shot(2), Step.Congestion(EARLY_ACK), Step.Send(SHOT_AFTER), Step.Congestion(SECOND_ACK),
                      Step.Congestion(LATE_ACK)]
    ensures AllReport(steps, 6) && |states| == 8
    ensures var s, ops := LoopSampler(states[6], LATE_ACK, 0), OpsUpTo(states, steps, 6, 0);
            var all := H.SavedBy(states[0].sampler, ops).all;
            && Asks(s, 1) && A0(s, 1) == AckPoint(2, 1200)
            && all != [] && H.ArgumentOf(s, 1) == 0 && H.LastWithin(all, 0).bytes <= 0
  {
    hide IsRun, IsStart, S.Run, S.Ordered, S.Unused, OpsUpTo, LoopSampler, H.SavedBy, H.LastWithin, A0, AllReport, Begin, Flight, Packet,
         Asks, H.ArgumentOf;
    states, steps := LateAckRun(delay, maxPackets, packetBuffer);
    BeginsUnused(maxPackets, packetBuffer);
    LateAckLoop(states[6]);
    FirstSavedAtLateAck(delay, states, steps, maxPackets);
    LoopProjects(delay, states, steps, maxPackets, 6, 0);
    assert Flight(0).overestimateAvoidance by { FlightAvoids(); }
    H.WronglyAnswered(states[0].sampler, OpsUpTo(states, steps, 6, 0), 1);
  }
}
