// Whole runs of the bandwidth sampler, and the slopes its samples are.
module SamplerRuns {
  import opened AckHeights
  import opened Rates
  import opened SamplerStates

  datatype Op =
    | Sent(time: int, packetNumber: int, bytes: int, bytesInFlight: int, retransmittable: bool)
    | Acked(time: int, packetNumber: int)
    | Lost(packetNumber: int, bytes: int)
    | Neutered(packetNumber: int)
    | AppLimited
    | Pruned(leastUnacked: int)
    | EventEnd(bandwidth: int, isNewMax: bool, round: int)
    | HeightReset(height: int, round: int)

  function Step(s: Sampler, op: Op): Sampler {
    match op
    case Sent(time, pn, bytes, inFlight, retransmittable) => AfterSent(s, time, pn, bytes, inFlight, retransmittable)
    case Acked(time, pn) => AfterAck(s, time, pn)
    case Lost(pn, bytes) => AfterLost(s, bytes)
    case Neutered(pn) => AfterNeutered(s, pn)
    case AppLimited => AfterAppLimited(s)
    case Pruned(n) => AfterPruned(s, n)
    case EventEnd(bandwidth, isNewMax, round) => AfterEventEnd(s, bandwidth, isNewMax, round).0
    case HeightReset(height, round) => AfterHeightReset(s, height, round)
  }

  function Run(s: Sampler, ops: seq<Op>): Sampler {
    if ops == [] then s else Step(Run(s, ops[..|ops| - 1]), ops[|ops| - 1])
  }

  // Packet numbers are non-negative and grow from send to send; sizes are not negative.
  predicate Sendable(s: Sampler, op: Op) {
    op.Sent? ==> 0 <= op.packetNumber && s.lastSentPacket < op.packetNumber && 0 <= op.bytes
  }

  predicate Ordered(s: Sampler, ops: seq<Op>) {
    ops == [] || (Ordered(s, ops[..|ops| - 1]) && Sendable(Run(s, ops[..|ops| - 1]), ops[|ops| - 1]))
  }

  lemma {:induction false} RunSplits(s: Sampler, a: seq<Op>, b: seq<Op>)
    ensures Run(s, a + b) == Run(Run(s, a), b)
    ensures Ordered(s, a + b) <==> Ordered(s, a) && Ordered(Run(s, a), b)
  {
    if b == [] {
      assert a + b == a;
    } else {
      var n := |b| - 1;
      assert (a + b)[..|a + b| - 1] == a + b[..n];
      RunSplits(s, a, b[..n]);
    }
  }

  // ---- A congestion event is a run of single steps ----

  function LossOps(lost: seq<LostPacket>): seq<Op> {
    if lost == [] then [] else LossOps(lost[..|lost| - 1]) + [Lost(lost[|lost| - 1].packetNumber, lost[|lost| - 1].bytesLost)]
  }

  function AckOps(time: int, acked: seq<AckedPacket>): seq<Op> {
    if acked == [] then [] else AckOps(time, acked[..|acked| - 1]) + [Acked(time, acked[|acked| - 1].packetNumber)]
  }

  function EndOps(s: Sampler, c: Congestion): seq<Op> {
    if c.acked == [] then []
    else
      var s1 := AfterLosses(s, c.lost).0;
      var t := AfterAcks(s1, c.time, c.acked);
      [EventEnd(EndBandwidth(s1, t, c), t.event.maxBandwidth > c.maxBandwidth, c.round)]
  }

  function CongestionOps(s: Sampler, c: Congestion): seq<Op> { LossOps(c.lost) + AckOps(c.time, c.acked) + EndOps(s, c) }

  predicate NoSends(ops: seq<Op>) { forall op | op in ops :: !op.Sent? }

  lemma {:induction false} LossesRun(s: Sampler, lost: seq<LostPacket>)
    ensures Run(s, LossOps(lost)) == AfterLosses(s, lost).0 && NoSends(LossOps(lost))
  {
    if lost != [] {
      var n := |lost| - 1;
      LossesRun(s, lost[..n]);
      assert LossOps(lost)[..|LossOps(lost)| - 1] == LossOps(lost[..n]);
    }
  }

  lemma {:induction false} AcksRun(s: Sampler, time: int, acked: seq<AckedPacket>)
    ensures Run(s, AckOps(time, acked)) == AfterAcks(s, time, acked).sampler && NoSends(AckOps(time, acked))
  {
    if acked != [] {
      var n := |acked| - 1;
      AcksRun(s, time, acked[..n]);
      assert AckOps(time, acked)[..|AckOps(time, acked)| - 1] == AckOps(time, acked[..n]);
    }
  }

  lemma {:induction false} NoSendsIsOrdered(s: Sampler, ops: seq<Op>)
    requires NoSends(ops)
    ensures Ordered(s, ops)
  {
    if ops != [] { NoSendsIsOrdered(s, ops[..|ops| - 1]); }
  }

  lemma CongestionIsRun(s: Sampler, c: Congestion)
    ensures Run(s, CongestionOps(s, c)) == AfterCongestion(s, c).0
    ensures NoSends(CongestionOps(s, c))
  {
    var losses, acks, end := LossOps(c.lost), AckOps(c.time, c.acked), EndOps(s, c);
    LossesRun(s, c.lost);
    AcksRun(Run(s, losses), c.time, c.acked);
    RunSplits(s, losses, acks);
    RunSplits(s, losses + acks, end);
    hide LossOps, AfterLosses, AfterEventEnd, EndBandwidth;
    if c.acked == [] {
      assert losses + acks + end == losses;
    } else {
      hide AckOps, AfterAcks;
      RunOfOne(Run(s, losses + acks), end[0]);
    }
  }

  lemma RunOfOne(s: Sampler, op: Op)
    ensures Run(s, [op]) == Step(s, op)
  {
    assert [op][..0] == [] && Run(s, [op][..0]) == s;
    hide Step;
  }

  // ---- The two curves ----

  // Every point (t, n) at which n bytes in total had been acknowledged, respectively sent, at time t: one for
  // each acknowledgement of a tracked packet and for each send from an idle connection, respectively one for
  // each tracked send.
  datatype Curves = Curves(acked: set<AckPoint>, sent: set<AckPoint>)

  function NextCurves(c: Curves, s: Sampler, op: Op): Curves {
    var r := Step(s, op);
    if op.Acked? && op.packetNumber in s.packets.live then c.(acked := c.acked + {AckPoint(op.time, r.totalBytesAcked)})
    else if op.Sent? && op.retransmittable then
      Curves(if op.bytesInFlight == 0 then c.acked + {AckPoint(op.time, r.totalBytesAcked)} else c.acked,
             c.sent + {AckPoint(op.time, r.totalBytesSent)})
    else c
  }

  function CurvesOf(s: Sampler, ops: seq<Op>): Curves {
    if ops == [] then Curves({}, {})
    else NextCurves(CurvesOf(s, ops[..|ops| - 1]), Run(s, ops[..|ops| - 1]), ops[|ops| - 1])
  }

  predicate FromCurves(c: Curves, lastSentTime: int, lastSent: int, lastAckTime: int, acked: int) {
    lastSentTime != 0 ==> AckPoint(lastSentTime, lastSent) in c.sent && AckPoint(lastAckTime, acked) in c.acked
  }

  // A snapshot's totals are bounded by the current ones, and its reference points lie on the curves.
  predicate GoodSnapshot(c: Curves, s: Sampler, n: Snapshot) {
    && 0 <= n.size
    && 0 <= n.sentAtLastAcked <= n.state.totalBytesSent <= s.totalBytesSent
    && 0 <= n.state.totalBytesAcked <= s.totalBytesAcked
    && AckPoint(n.sentTime, n.state.totalBytesSent) in c.sent
    && FromCurves(c, n.lastAckedSentTime, n.sentAtLastAcked, n.lastAckedAckTime, n.state.totalBytesAcked)
  }

  predicate NoLaterTotals(n: Snapshot, m: Snapshot) {
    n.state.totalBytesSent <= m.state.totalBytesSent && n.state.totalBytesAcked <= m.state.totalBytesAcked
  }

  ghost predicate GoodPackets(c: Curves, s: Sampler) {
    && (forall k | k in s.packets.live :: 0 <= k <= s.lastSentPacket && GoodSnapshot(c, s, s.packets.live[k]))
    && (forall j, k | j in s.packets.live && k in s.packets.live && j <= k ::
          NoLaterTotals(s.packets.live[j], s.packets.live[k]))
    && INVALID_PACKET <= s.packets.last <= s.lastSentPacket
  }

  ghost predicate GoodPoints(c: Curves, s: Sampler) {
    && (forall p | p in c.acked :: 0 <= p.bytes <= s.totalBytesAcked)
    && (forall p | p in c.sent :: 0 <= p.bytes <= s.totalBytesSent)
    && (s.recent.older.bytes != 0 ==> s.recent.older in c.acked)
    && (s.recent.newest in c.acked || (s.recent.newest == NO_POINT && (s.overestimateAvoidance ==> s.totalBytesAcked == 0)))
    && (forall p | p in s.candidates :: p in c.acked)
  }

  ghost predicate Good(c: Curves, s: Sampler) {
    && GoodPoints(c, s) && GoodPackets(c, s)
    && 0 <= s.ackedAfterLastEvent <= s.totalBytesAcked
    && 0 <= s.sentAtLastAcked <= s.totalBytesSent
    && FromCurves(c, s.lastAckedSentTime, s.sentAtLastAcked, s.lastAckedAckTime, s.totalBytesAcked)
  }

  predicate Grows(c: Curves, s: Sampler, c': Curves, s': Sampler) {
    && c.acked <= c'.acked && c.sent <= c'.sent
    && s.totalBytesSent <= s'.totalBytesSent && s.totalBytesAcked <= s'.totalBytesAcked
    && s.lastSentPacket <= s'.lastSentPacket
  }

  lemma GrowingKeepsPackets(c: Curves, s: Sampler, c': Curves, s': Sampler)
    requires GoodPackets(c, s) && Grows(c, s, c', s') && s'.packets == s.packets
    ensures GoodPackets(c', s')
  {
  }

  ghost predicate IsNew(s: Sampler, packetNumber: int) {
    s.packets.last < packetNumber == s.lastSentPacket && forall k | k in s.packets.live :: k < packetNumber
  }

  lemma TrackingKeepsPackets(c: Curves, s: Sampler, packetNumber: int, n: Snapshot)
    requires GoodPackets(c, s) && GoodSnapshot(c, s, n)
    requires n.state.totalBytesSent == s.totalBytesSent && n.state.totalBytesAcked == s.totalBytesAcked
    requires IsNew(s, packetNumber) && 0 <= packetNumber
    ensures GoodPackets(c, Tracked(s, packetNumber, n))
  {
    var r := Tracked(s, packetNumber, n);
    forall j, k | j in r.packets.live && k in r.packets.live && j <= k
      ensures NoLaterTotals(r.packets.live[j], r.packets.live[k])
    {
      if k == packetNumber && j != k {
        assert GoodSnapshot(c, s, s.packets.live[j]);
      } else if k != packetNumber {
        assert j in s.packets.live && k in s.packets.live;
      }
    }
  }

  function Opened(s: Sampler, op: Op): Sampler
    requires op.Sent?
  {
    BeforeTracking(s, op.time, op.packetNumber, op.bytes, op.bytesInFlight)
  }

  lemma CountingKeepsPoints(c: Curves, s: Sampler, op: Op)
    requires GoodPoints(c, s) && op.Sent? && op.retransmittable && 0 <= op.bytes && 0 <= s.totalBytesAcked && 0 <= s.totalBytesSent
    ensures GoodPoints(NextCurves(c, s, op), Opened(s, op))
  {
  }

  lemma CountingKeepsGood(c: Curves, s: Sampler, op: Op)
    requires Good(c, s) && op.Sent? && op.retransmittable && Sendable(s, op)
    ensures Good(NextCurves(c, s, op), Opened(s, op)) && IsNew(Opened(s, op), op.packetNumber)
  {
    CountingKeepsPoints(c, s, op);
    GrowingKeepsPackets(c, s, NextCurves(c, s, op), Opened(s, op));
    SentIsNew(c, s, op);
    hide GoodPackets, GoodPoints, IsNew;
  }

  lemma SentIsNew(c: Curves, s: Sampler, op: Op)
    requires GoodPackets(c, s) && op.Sent? && s.lastSentPacket < op.packetNumber
    ensures IsNew(Opened(s, op), op.packetNumber)
  {
    hide GoodSnapshot, NoLaterTotals;
  }

  lemma TrackingKeepsGood(c: Curves, s: Sampler, op: Op)
    requires Good(c, s) && op.Sent? && IsNew(s, op.packetNumber) && 0 <= op.packetNumber && 0 <= op.bytes
    requires AckPoint(op.time, s.totalBytesSent) in c.sent
    ensures Good(c, Tracked(s, op.packetNumber, SnapshotOf(s, op.time, op.bytes, op.bytesInFlight + op.bytes)))
  {
    TrackingKeepsPackets(c, s, op.packetNumber, SnapshotOf(s, op.time, op.bytes, op.bytesInFlight + op.bytes));
  }

  lemma SendKeepsGood(c: Curves, s: Sampler, op: Op)
    requires Good(c, s) && op.Sent? && Sendable(s, op)
    ensures Good(NextCurves(c, s, op), Step(s, op))
  {
    if op.retransmittable {
      CountingKeepsGood(c, s, op);
      TrackingKeepsGood(NextCurves(c, s, op), Opened(s, op), op);
    } else {
      GrowingKeepsPackets(c, s, c, Step(s, op));
    }
  }

  lemma AckKeepsPoints(c: Curves, s: Sampler, op: Op)
    requires GoodPoints(c, s) && op.Acked? && op.packetNumber in s.packets.live && 0 <= s.packets.live[op.packetNumber].size
    requires 0 <= s.totalBytesAcked
    ensures GoodPoints(NextCurves(c, s, op), Step(s, op))
  {
    AckLeaves(s, op);
    hide Step, RecentPoints.LessRecent;
  }

  // What acknowledging a tracked packet does to totals, points and candidates.
  lemma AckLeaves(s: Sampler, op: Op)
    requires op.Acked? && op.packetNumber in s.packets.live
    ensures var r := Step(s, op);
            && r.totalBytesAcked == s.totalBytesAcked + s.packets.live[op.packetNumber].size && r.totalBytesSent == s.totalBytesSent
            && r.recent == (if s.overestimateAvoidance then s.recent.Updated(op.time, r.totalBytesAcked) else s.recent)
            && r.overestimateAvoidance == s.overestimateAvoidance
            && forall p | p in r.candidates :: p in s.candidates
  {
    hide DroppedByChoice, RecentPoints.Updated;
  }

  lemma AckKeepsGood(c: Curves, s: Sampler, op: Op)
    requires Good(c, s) && op.Acked?
    ensures Good(NextCurves(c, s, op), Step(s, op))
  {
    if op.packetNumber in s.packets.live {
      var n := s.packets.live[op.packetNumber];
      assert GoodSnapshot(c, s, n);
      AckKeepsPoints(c, s, op);
      GrowingKeepsPackets(c, s, NextCurves(c, s, op), Step(s, op));
    }
  }

  lemma OtherStepsKeepGood(c: Curves, s: Sampler, op: Op)
    requires Good(c, s) && !op.Acked? && !op.Sent?
    ensures Good(NextCurves(c, s, op), Step(s, op))
  {
    OtherStepLeaves(s, op);
    hide Step;
  }

  // What the remaining steps leave alone.
  lemma OtherStepLeaves(s: Sampler, op: Op)
    requires !op.Acked? && !op.Sent?
    ensures var r := Step(s, op);
            && r.totalBytesSent == s.totalBytesSent && r.totalBytesAcked == s.totalBytesAcked && r.lastSentPacket == s.lastSentPacket
            && r.sentAtLastAcked == s.sentAtLastAcked && r.lastAckedSentTime == s.lastAckedSentTime
            && r.lastAckedAckTime == s.lastAckedAckTime && r.recent == s.recent && r.overestimateAvoidance == s.overestimateAvoidance
            && (r.ackedAfterLastEvent == s.ackedAfterLastEvent || r.ackedAfterLastEvent == s.totalBytesAcked)
            && (|| r.candidates == s.candidates
                || (&& r.candidates == s.candidates + [s.recent.LessRecent()]
                    && s.overestimateAvoidance && s.totalBytesAcked != s.ackedAfterLastEvent))
            && r.packets.live.Keys <= s.packets.live.Keys && (forall k | k in r.packets.live :: r.packets.live[k] == s.packets.live[k])
            && (r.packets.last == s.packets.last || r.packets.last == INVALID_PACKET)
  {
    hide Observed;
  }

  // A sampler nothing has been sent on yet, with overestimate avoidance on or off.
  predicate Unused(s: Sampler) {
    s.(overestimateAvoidance := false, limitBySendRate := false, heights := NewHeights(0)) == NewSampler(0)
  }

  lemma {:induction false} RunsAreGood(s: Sampler, ops: seq<Op>)
    requires Unused(s) && Ordered(s, ops)
    ensures Good(CurvesOf(s, ops), Run(s, ops))
  {
    if ops != [] {
      var before, op := ops[..|ops| - 1], ops[|ops| - 1];
      RunsAreGood(s, before);
      if op.Sent? {
        SendKeepsGood(CurvesOf(s, before), Run(s, before), op);
      } else if op.Acked? {
        AckKeepsGood(CurvesOf(s, before), Run(s, before), op);
      } else {
        OtherStepsKeepGood(CurvesOf(s, before), Run(s, before), op);
      }
    }
  }

  // rate is the slope of a curve from p to q, two of its points, q strictly later and no lower.
  predicate IsSlope(curve: set<AckPoint>, p: AckPoint, q: AckPoint, rate: int) {
    p in curve && q in curve && p.time < q.time && p.bytes <= q.bytes && rate == BandwidthFromDelta(q.bytes - p.bytes, q.time - p.time)
  }

  // An acknowledgement yields a sample exactly when its packet is tracked, was sent after an earlier acknowledgement or
  // from idle, and is acknowledged later than its A0 point.
  predicate Measures(s: Sampler, time: int, packetNumber: int) {
    && packetNumber in s.packets.live && s.packets.live[packetNumber].lastAckedSentTime != 0
    && A0(s, packetNumber).time < time
  }

  // The sample then carries the time since the packet was sent and the send state of its snapshot, and is the smaller of
  // two rates. The ack rate is the slope of the acknowledged curve from the A0 point to this very acknowledgement. The
  // send rate is the slope of the sent curve from the point stored in the packet's snapshot to the packet's own send,
  // and unlimited exactly when that send was no later. Otherwise it carries no bandwidth.
  ghost predicate IsSmallerSlope(c: Curves, s: Sampler, time: int, packetNumber: int) {
    var sample := AckSample(s, time, packetNumber);
    && (sample.state.isValid <==> Measures(s, time, packetNumber))
    && if Measures(s, time, packetNumber) then
         var n := s.packets.live[packetNumber];
         && sample.rtt == time - n.sentTime && sample.state == n.state.(isValid := true)
         && (if n.sentTime <= n.lastAckedSentTime then sample.sendRate == INF_BANDWIDTH
             else IsSlope(c.sent, AckPoint(n.lastAckedSentTime, n.sentAtLastAcked), AckPoint(n.sentTime, n.state.totalBytesSent),
                          sample.sendRate))
         && exists ackRate ::
              IsSlope(c.acked, A0(s, packetNumber), AckPoint(time, s.totalBytesAcked + n.size), ackRate)
              && sample.bandwidth == Min(sample.sendRate, ackRate)
       else sample.bandwidth == 0
  }

  // So is every sample of every run, with overestimate avoidance on or off.
  lemma SamplesAreSlopes(s: Sampler, ops: seq<Op>, time: int, packetNumber: int)
    requires Unused(s) && Ordered(s, ops)
    ensures IsSmallerSlope(CurvesOf(s, ops + [Acked(time, packetNumber)]), Run(s, ops), time, packetNumber)
  {
    hide Good, Ordered, Unused, NextCurves, Step, IsSmallerSlope;
    RunsAreGood(s, ops);
    assert (ops + [Acked(time, packetNumber)])[..|ops + [Acked(time, packetNumber)]| - 1] == ops;
    SampleIsSlope(CurvesOf(s, ops), Run(s, ops), time, packetNumber);
  }

  lemma SampleIsSlope(c: Curves, s: Sampler, time: int, packetNumber: int)
    requires Good(c, s)
    ensures IsSmallerSlope(NextCurves(c, s, Acked(time, packetNumber)), s, time, packetNumber)
  {
    hide Good, NextCurves, IsSlope;
    SampleParts(s, time, packetNumber);
    if Measures(s, time, packetNumber) {
      hide AckSample, A0, SendRate, BandwidthFromDelta;
      AckRateIsSlope(c, s, time, packetNumber);
      SendRateIsSlope(c, s, time, packetNumber);
    }
  }

  lemma SampleParts(s: Sampler, time: int, packetNumber: int)
    ensures AckSample(s, time, packetNumber).state.isValid <==> Measures(s, time, packetNumber)
    ensures var sample := AckSample(s, time, packetNumber);
            if Measures(s, time, packetNumber) then
              var n := s.packets.live[packetNumber];
              && sample.rtt == time - n.sentTime && sample.state == n.state.(isValid := true) && sample.sendRate == SendRate(n)
              && sample.bandwidth == Min(SendRate(n), BandwidthFromDelta(s.totalBytesAcked + n.size - A0(s, packetNumber).bytes,
                                                                         time - A0(s, packetNumber).time))
            else sample == NO_SAMPLE
  {
    hide A0, SendRate, BandwidthFromDelta;
  }

  lemma AckRateIsSlope(c: Curves, s: Sampler, time: int, packetNumber: int)
    requires Good(c, s) && packetNumber in s.packets.live && s.packets.live[packetNumber].lastAckedSentTime != 0
    requires A0(s, packetNumber).time < time
    ensures var a0, total := A0(s, packetNumber), s.totalBytesAcked + s.packets.live[packetNumber].size;
            IsSlope(NextCurves(c, s, Acked(time, packetNumber)).acked, a0, AckPoint(time, total),
                    BandwidthFromDelta(total - a0.bytes, time - a0.time))
  {
    A0IsGenuine(c, s, packetNumber);
    assert GoodSnapshot(c, s, s.packets.live[packetNumber]);
    assert 0 <= A0(s, packetNumber).bytes <= s.totalBytesAcked;
    AckAddsPoint(c, s, time, packetNumber);
    hide Good, A0, NextCurves, BandwidthFromDelta;
  }

  lemma AckAddsPoint(c: Curves, s: Sampler, time: int, packetNumber: int)
    requires packetNumber in s.packets.live
    ensures var r := NextCurves(c, s, Acked(time, packetNumber));
            r.sent == c.sent && r.acked == c.acked + {AckPoint(time, s.totalBytesAcked + s.packets.live[packetNumber].size)}
  {
    hide DroppedByChoice;
  }

  lemma A0IsGenuine(c: Curves, s: Sampler, packetNumber: int)
    requires Good(c, s) && packetNumber in s.packets.live && s.packets.live[packetNumber].lastAckedSentTime != 0
    ensures A0(s, packetNumber) in c.acked
  {
    assert GoodSnapshot(c, s, s.packets.live[packetNumber]);
    if Asks(s, packetNumber) {
      assert A0(s, packetNumber) in s.candidates;
    }
  }

  lemma SendRateIsSlope(c: Curves, s: Sampler, time: int, packetNumber: int)
    requires Good(c, s) && packetNumber in s.packets.live && s.packets.live[packetNumber].lastAckedSentTime != 0
    ensures var n := s.packets.live[packetNumber];
            if n.sentTime <= n.lastAckedSentTime then SendRate(n) == INF_BANDWIDTH
            else IsSlope(NextCurves(c, s, Acked(time, packetNumber)).sent, AckPoint(n.lastAckedSentTime, n.sentAtLastAcked),
                         AckPoint(n.sentTime, n.state.totalBytesSent), SendRate(n))
  {
    assert GoodSnapshot(c, s, s.packets.live[packetNumber]);
    AckAddsPoint(c, s, time, packetNumber);
    hide Good, NextCurves;
  }

  // Each tracked snapshot is bounded by the current totals, and later packets have no smaller ones.
  lemma SnapshotsAreMonotone(s: Sampler, ops: seq<Op>, j: int, k: int)
    requires Unused(s) && Ordered(s, ops)
    requires j in Run(s, ops).packets.live && k in Run(s, ops).packets.live && j <= k
    ensures var r := Run(s, ops);
            var n, m := r.packets.live[j].state, r.packets.live[k].state;
            && 0 <= n.totalBytesSent <= m.totalBytesSent <= r.totalBytesSent
            && 0 <= n.totalBytesAcked <= m.totalBytesAcked <= r.totalBytesAcked
  {
    RunsAreGood(s, ops);
    assert GoodSnapshot(CurvesOf(s, ops), Run(s, ops), Run(s, ops).packets.live[k]);
    assert GoodSnapshot(CurvesOf(s, ops), Run(s, ops), Run(s, ops).packets.live[j]);
    assert NoLaterTotals(Run(s, ops).packets.live[j], Run(s, ops).packets.live[k]);
  }
}
