// The bandwidth sampler of bbr/bandwidth_sampler.go as a state machine: the snapshots taken when packets are
// sent, the samples made when they are acknowledged, and the app-limited phase. Times are nanoseconds, and the
// time 0 is the zero time.
module SamplerStates {
  import opened AckHeights
  import opened PacketQueues
  import opened Rates
  import opened WindowedFilters

  const INF_RTT := 0x7FFF_FFFF_FFFF_FFFF

  // ---- Points and candidates ----

  datatype AckPoint = AckPoint(time: int, bytes: int)

  const NO_POINT := AckPoint(0, 0)

  // The two most recent points at distinct times.
  datatype RecentPoints = RecentPoints(older: AckPoint, newest: AckPoint) {
    function Updated(time: int, bytes: int): RecentPoints {
      if time > newest.time then RecentPoints(newest, AckPoint(time, bytes)) else RecentPoints(older, AckPoint(time, bytes))
    }

    function LessRecent(): AckPoint { if older.bytes != 0 then older else newest }
  }

  // The first candidate, from index i on, with more than the given total; the length if there is none.
  function FirstAbove(candidates: seq<AckPoint>, total: int, i: nat): (k: nat)
    requires i <= |candidates|
    ensures i <= k <= |candidates|
    ensures forall j | i <= j < k :: candidates[j].bytes <= total
    ensures k < |candidates| ==> total < candidates[k].bytes
    decreases |candidates| - i
  {
    if i == |candidates| || candidates[i].bytes > total then i else FirstAbove(candidates, total, i + 1)
  }

  function ChosenA0(candidates: seq<AckPoint>, total: int): AckPoint
    requires candidates != []
  {
    candidates[FirstAbove(candidates, total, 1) - 1]
  }

  // How many candidates a choice drops. When all totals qualify the loop bound shrinks with the queue, so only
  // half of them go.
  function DroppedByChoice(candidates: seq<AckPoint>, total: int): (n: nat)
    requires candidates != []
    ensures n < |candidates|
  {
    var k := FirstAbove(candidates, total, 1);
    if k < |candidates| then k - 1 else |candidates| / 2
  }

  // ---- Snapshots and samples ----

  datatype SendState = SendState(
    isValid: bool,
    isAppLimited: bool,
    totalBytesSent: int,
    totalBytesAcked: int,
    totalBytesLost: int,
    bytesInFlight: int)

  const NO_STATE := SendState(false, false, 0, 0, 0, 0)

  datatype Snapshot = Snapshot(
    sentTime: int,
    size: int,
    sentAtLastAcked: int,
    lastAckedSentTime: int,
    lastAckedAckTime: int,
    state: SendState)

  const NO_SNAPSHOT := Snapshot(0, 0, 0, 0, 0, NO_STATE)

  datatype Sample = Sample(bandwidth: int, rtt: int, sendRate: int, state: SendState)

  const NO_SAMPLE := Sample(0, 0, INF_BANDWIDTH, NO_STATE)

  datatype EventSample = EventSample(
    maxBandwidth: int,
    isAppLimited: bool,
    rtt: int,
    maxInflight: int,
    lastPacketSendState: SendState,
    extraAcked: int)

  const NO_EVENT_SAMPLE := EventSample(0, false, INF_RTT, 0, NO_STATE, 0)

  datatype AckedPacket = AckedPacket(packetNumber: int, bytesAcked: int)

  datatype LostPacket = LostPacket(packetNumber: int, bytesLost: int)

  datatype Sampler = Sampler(
    totalBytesSent: int,
    totalBytesAcked: int,
    totalBytesLost: int,
    totalBytesNeutered: int,
    sentAtLastAcked: int,
    lastAckedSentTime: int,
    lastAckedAckTime: int,
    lastSentPacket: int,
    lastAckedPacket: int,
    isAppLimited: bool,
    endOfAppLimitedPhase: int,
    packets: Packets<Snapshot>,
    recent: RecentPoints,
    candidates: seq<AckPoint>,
    heights: Heights,
    ackedAfterLastEvent: int,
    overestimateAvoidance: bool,
    limitBySendRate: bool)

  function NewSampler(window: nat): Sampler {
    Sampler(0, 0, 0, 0, 0, 0, 0, INVALID_PACKET, INVALID_PACKET, false, INVALID_PACKET, Packets(map[], INVALID_PACKET),
            RecentPoints(NO_POINT, NO_POINT), [], NewHeights(window), 0, false, false)
  }

  function WithOverestimateAvoidance(s: Sampler): Sampler {
    if s.overestimateAvoidance then s
    else s.(overestimateAvoidance := true, heights := s.heights.(threshold := 2.0))
  }

  // ---- Sending ----

  function Accepts(packets: Packets<Snapshot>, packetNumber: int): bool {
    packetNumber != INVALID_PACKET && (packets.live == map[] || packets.last < packetNumber)
  }

  function Reopened(s: Sampler, sentTime: int): Sampler {
    var r := s.(lastAckedAckTime := sentTime, sentAtLastAcked := s.totalBytesSent, lastAckedSentTime := sentTime);
    if !s.overestimateAvoidance then r
    else
      var recent := RecentPoints(NO_POINT, NO_POINT).Updated(sentTime, s.totalBytesAcked);
      r.(recent := recent, candidates := [recent.newest])
  }

  function SnapshotOf(s: Sampler, sentTime: int, size: int, bytesInFlight: int): Snapshot {
    Snapshot(sentTime, size, s.sentAtLastAcked, s.lastAckedSentTime, s.lastAckedAckTime,
             SendState(true, s.isAppLimited, s.totalBytesSent, s.totalBytesAcked, s.totalBytesLost, bytesInFlight))
  }

  function Tracked(s: Sampler, packetNumber: int, snapshot: Snapshot): Sampler {
    if Accepts(s.packets, packetNumber) then s.(packets := s.packets.Emplaced(packetNumber, snapshot)) else s
  }

  // The state that the snapshot of a tracked send records.
  function BeforeTracking(s: Sampler, sentTime: int, packetNumber: int, bytes: int, bytesInFlight: int): Sampler {
    var r := s.(lastSentPacket := packetNumber, totalBytesSent := s.totalBytesSent + bytes);
    if bytesInFlight == 0 then Reopened(r, sentTime) else r
  }

  function AfterSent(s: Sampler, sentTime: int, packetNumber: int, bytes: int, bytesInFlight: int, retransmittable: bool): Sampler {
    if !retransmittable then s.(lastSentPacket := packetNumber)
    else
      var r := BeforeTracking(s, sentTime, packetNumber, bytes, bytesInFlight);
      Tracked(r, packetNumber, SnapshotOf(r, sentTime, bytes, bytesInFlight + bytes))
  }

  // ---- One acknowledgement ----

  function Counted(s: Sampler, ackTime: int, packetNumber: int): Sampler
    requires packetNumber in s.packets.live
  {
    var snapshot := s.packets.live[packetNumber];
    var total := s.totalBytesAcked + snapshot.size;
    s.(lastAckedPacket := packetNumber,
       totalBytesAcked := total,
       sentAtLastAcked := snapshot.state.totalBytesSent,
       lastAckedSentTime := snapshot.sentTime,
       lastAckedAckTime := ackTime,
       recent := if s.overestimateAvoidance then s.recent.Updated(ackTime, total) else s.recent,
       isAppLimited := s.isAppLimited && !(s.endOfAppLimitedPhase == INVALID_PACKET || packetNumber > s.endOfAppLimitedPhase))
  }

  predicate Asks(s: Sampler, packetNumber: int) {
    && packetNumber in s.packets.live && s.packets.live[packetNumber].lastAckedSentTime != 0
    && s.overestimateAvoidance && s.candidates != []
  }

  // The point the ack slope starts from.
  function A0(s: Sampler, packetNumber: int): AckPoint
    requires packetNumber in s.packets.live
  {
    var snapshot := s.packets.live[packetNumber];
    if Asks(s, packetNumber) then ChosenA0(s.candidates, snapshot.state.totalBytesAcked)
    else AckPoint(snapshot.lastAckedAckTime, snapshot.state.totalBytesAcked)
  }

  function SendRate(snapshot: Snapshot): int {
    if snapshot.sentTime > snapshot.lastAckedSentTime
    then BandwidthFromDelta(snapshot.state.totalBytesSent - snapshot.sentAtLastAcked,
                            snapshot.sentTime - snapshot.lastAckedSentTime)
    else INF_BANDWIDTH
  }

  function AckSample(s: Sampler, ackTime: int, packetNumber: int): Sample {
    if packetNumber !in s.packets.live || s.packets.live[packetNumber].lastAckedSentTime == 0 then NO_SAMPLE
    else
      var snapshot := s.packets.live[packetNumber];
      var a0 := A0(s, packetNumber);
      if ackTime - a0.time <= 0 then NO_SAMPLE
      else
        var ackRate := BandwidthFromDelta(s.totalBytesAcked + snapshot.size - a0.bytes, ackTime - a0.time);
        Sample(Min(SendRate(snapshot), ackRate), ackTime - snapshot.sentTime, SendRate(snapshot),
               snapshot.state.(isValid := true))
  }

  function AfterAck(s: Sampler, ackTime: int, packetNumber: int): Sampler {
    if packetNumber !in s.packets.live then s.(lastAckedPacket := packetNumber)
    else
      var total := s.packets.live[packetNumber].state.totalBytesAcked;
      var r := Counted(s, ackTime, packetNumber);
      if Asks(s, packetNumber) then r.(candidates := s.candidates[DroppedByChoice(s.candidates, total)..]) else r
  }

  // ---- Losses, neutering, pruning ----

  function AfterLost(s: Sampler, bytesLost: int): Sampler { s.(totalBytesLost := s.totalBytesLost + bytesLost) }

  function StateOf(s: Sampler, packetNumber: int): SendState {
    if packetNumber in s.packets.live then s.packets.live[packetNumber].state.(isValid := true) else NO_STATE
  }

  function AfterNeutered(s: Sampler, packetNumber: int): Sampler {
    s.(packets := s.packets.Removed(packetNumber),
       totalBytesNeutered := s.totalBytesNeutered
                             + if packetNumber in s.packets.live then s.packets.live[packetNumber].size else 0)
  }

  function AfterAppLimited(s: Sampler): Sampler { s.(isAppLimited := true, endOfAppLimitedPhase := s.lastSentPacket) }

  function AfterPruned(s: Sampler, leastUnacked: int): Sampler { s.(packets := s.packets.RemovedUpTo(leastUnacked)) }

  function AfterHeightReset(s: Sampler, height: int, round: int): Sampler {
    s.(heights := s.heights.(filter := ResetTo(s.heights.filter, Entry(ExtraAcked(height, 0, 0, round), round))))
  }

  // ---- The end of an ack event ----

  function AckEventOf(s: Sampler, bandwidth: int, isNewMax: bool, round: int): AckEvent {
    AckEvent(bandwidth, isNewMax, round, s.lastSentPacket, s.lastAckedPacket, s.lastAckedAckTime,
             s.totalBytesAcked - s.ackedAfterLastEvent)
  }

  function AfterEventEnd(s: Sampler, bandwidth: int, isNewMax: bool, round: int): (Sampler, int) {
    if s.totalBytesAcked == s.ackedAfterLastEvent then (s, 0)
    else
      var (heights, extra) := Observed(s.heights, AckEventOf(s, bandwidth, isNewMax, round));
      var r := s.(ackedAfterLastEvent := s.totalBytesAcked, heights := heights);
      (if s.overestimateAvoidance && extra == 0 then r.(candidates := r.candidates + [r.recent.LessRecent()]) else r, extra)
  }

  // ---- A whole congestion event ----

  function AfterLosses(s: Sampler, lost: seq<LostPacket>): (Sampler, SendState) {
    if lost == [] then (s, NO_STATE)
    else
      var p := lost[|lost| - 1];
      var (r, last) := AfterLosses(s, lost[..|lost| - 1]);
      (AfterLost(r, p.bytesLost), if StateOf(r, p.packetNumber).isValid then StateOf(r, p.packetNumber) else last)
  }

  // What the loop over the acked packets accumulates.
  datatype Tally = Tally(sampler: Sampler, event: EventSample, last: SendState, maxSendRate: int)

  function Tallied(t: Tally, ackTime: int, packetNumber: int): Tally {
    var sample := AckSample(t.sampler, ackTime, packetNumber);
    var r := t.(sampler := AfterAck(t.sampler, ackTime, packetNumber));
    if !sample.state.isValid then r
    else
      var better := sample.bandwidth > t.event.maxBandwidth;
      var inflight := r.sampler.totalBytesAcked - sample.state.totalBytesAcked;
      r.(last := sample.state,
         maxSendRate := if sample.sendRate != INF_BANDWIDTH then Max(t.maxSendRate, sample.sendRate) else t.maxSendRate,
         event := t.event.(rtt := if sample.rtt != 0 then Min(t.event.rtt, sample.rtt) else t.event.rtt,
                           maxBandwidth := if better then sample.bandwidth else t.event.maxBandwidth,
                           isAppLimited := if better then sample.state.isAppLimited else t.event.isAppLimited,
                           maxInflight := Max(t.event.maxInflight, inflight)))
  }

  function AfterAcks(s: Sampler, ackTime: int, acked: seq<AckedPacket>): Tally {
    if acked == [] then Tally(s, NO_EVENT_SAMPLE, NO_STATE, 0)
    else Tallied(AfterAcks(s, ackTime, acked[..|acked| - 1]), ackTime, acked[|acked| - 1].packetNumber)
  }

  function LastState(lostState: SendState, ackedState: SendState, lost: seq<LostPacket>, acked: seq<AckedPacket>): SendState
    requires acked != []
  {
    if !lostState.isValid then ackedState
    else if !ackedState.isValid || lost == [] then lostState
    else if lost[|lost| - 1].packetNumber > acked[|acked| - 1].packetNumber then lostState
    else ackedState
  }

  datatype Congestion = Congestion(time: int, acked: seq<AckedPacket>, lost: seq<LostPacket>, maxBandwidth: int,
                                   upperBound: int, round: int)

  function EndBandwidth(s: Sampler, t: Tally, c: Congestion): int {
    var bandwidth := Max(c.maxBandwidth, t.event.maxBandwidth);
    Min(c.upperBound, if s.limitBySendRate then Max(bandwidth, t.maxSendRate) else bandwidth)
  }

  function AfterCongestion(s: Sampler, c: Congestion): (Sampler, EventSample) {
    var (s1, lostState) := AfterLosses(s, c.lost);
    if c.acked == [] then (s1, NO_EVENT_SAMPLE.(lastPacketSendState := lostState))
    else
      var t := AfterAcks(s1, c.time, c.acked);
      var (s2, extra) := AfterEventEnd(t.sampler, EndBandwidth(s1, t, c), t.event.maxBandwidth > c.maxBandwidth, c.round);
      (s2, t.event.(lastPacketSendState := LastState(lostState, t.last, c.lost, c.acked), extraAcked := extra))
  }
}
