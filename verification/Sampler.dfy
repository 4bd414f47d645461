// The bandwidth sampler object of bbr/bandwidth_sampler.go, proved against its state machine.
module Samplers {
  import opened AckHeights
  import opened Options
  import opened PacketQueues
  import opened Rates
  import opened RingBuffers
  import opened SamplerStates

  class RecentAckPoints {
    var older: AckPoint
    var newest: AckPoint

    function View(): RecentPoints
      reads this
    {
      RecentPoints(older, newest)
    }

    constructor ()
      ensures View() == RecentPoints(NO_POINT, NO_POINT)
    {
      older, newest := NO_POINT, NO_POINT;
    }

    method Update(ackTime: int, totalBytesAcked: int)
      modifies this
      ensures View() == old(View()).Updated(ackTime, totalBytesAcked)
    {
      if ackTime < newest.time {
        newest := newest.(time := ackTime);
      } else if ackTime > newest.time {
        older := newest;
        newest := newest.(time := ackTime);
      }
      newest := newest.(bytes := totalBytesAcked);
    }

    method Clear()
      modifies this
      ensures View() == RecentPoints(NO_POINT, NO_POINT)
    {
      older, newest := NO_POINT, NO_POINT;
    }
  }

  class BandwidthSampler {
    var totalBytesSent: int
    var totalBytesAcked: int
    var totalBytesLost: int
    var totalBytesNeutered: int
    var totalBytesSentAtLastAckedPacket: int
    var lastAckedPacketSentTime: int
    var lastAckedPacketAckTime: int
    var lastSentPacket: int
    var lastAckedPacket: int
    var isAppLimited: bool
    var endOfAppLimitedPhase: int
    const connectionStateMap: PacketNumberIndexedQueue<Snapshot>
    const recentAckPoints: RecentAckPoints
    const a0Candidates: RingBuffer<AckPoint>
    const maxAckHeightTracker: MaxAckHeightTracker
    var totalBytesAckedAfterLastAckEvent: int
    var overestimateAvoidance: bool
    var limitMaxAckHeightTrackerBySendRate: bool

    ghost var Repr: set<object>

    ghost predicate Valid()
      reads this, Repr
      ensures Valid() ==> this in Repr
    {
      && this in Repr && recentAckPoints in Repr
      && connectionStateMap in Repr && connectionStateMap.Repr <= Repr
      && a0Candidates in Repr && a0Candidates.Repr <= Repr
      && maxAckHeightTracker in Repr && maxAckHeightTracker.Repr <= Repr
      && this !in connectionStateMap.Repr + a0Candidates.Repr + maxAckHeightTracker.Repr
      && recentAckPoints !in connectionStateMap.Repr + a0Candidates.Repr + maxAckHeightTracker.Repr
      && connectionStateMap.Repr !! a0Candidates.Repr
      && connectionStateMap.Repr !! maxAckHeightTracker.Repr
      && a0Candidates.Repr !! maxAckHeightTracker.Repr
      && connectionStateMap.Valid() && a0Candidates.Valid() && maxAckHeightTracker.Valid()
    }

    ghost function View(): Sampler
      requires Valid()
      reads this, Repr
    {
      Sampler(totalBytesSent, totalBytesAcked, totalBytesLost, totalBytesNeutered, totalBytesSentAtLastAckedPacket,
              lastAckedPacketSentTime, lastAckedPacketAckTime, lastSentPacket, lastAckedPacket, isAppLimited,
              endOfAppLimitedPhase, connectionStateMap.View(), recentAckPoints.View(), a0Candidates.Contents(),
              maxAckHeightTracker.View(), totalBytesAckedAfterLastAckEvent, overestimateAvoidance,
              limitMaxAckHeightTrackerBySendRate)
    }

    constructor (window: nat)
      ensures Valid() && fresh(Repr)
      ensures View() == NewSampler(window)
    {
      hide PacketNumberIndexedQueue.Valid, PacketNumberIndexedQueue.View, RingBuffer.Valid, RingBuffer.Contents;
      hide MaxAckHeightTracker.Valid, MaxAckHeightTracker.View;
      totalBytesSent, totalBytesAcked, totalBytesLost, totalBytesNeutered := 0, 0, 0, 0;
      totalBytesSentAtLastAckedPacket, lastAckedPacketSentTime, lastAckedPacketAckTime := 0, 0, 0;
      lastSentPacket, lastAckedPacket, endOfAppLimitedPhase := INVALID_PACKET, INVALID_PACKET, INVALID_PACKET;
      isAppLimited, overestimateAvoidance, limitMaxAckHeightTrackerBySendRate := false, false, false;
      totalBytesAckedAfterLastAckEvent := 0;
      var packets := new PacketNumberIndexedQueue(256, NO_SNAPSHOT);
      var points := new RecentAckPoints();
      assert points !in packets.Repr;
      var candidates := new RingBuffer(256, NO_POINT);
      assert points !in candidates.Repr && packets.Repr !! candidates.Repr;
      var tracker := new MaxAckHeightTracker(window);
      assert points !in tracker.Repr && packets.Repr !! tracker.Repr && candidates.Repr !! tracker.Repr;
      connectionStateMap, recentAckPoints, a0Candidates, maxAckHeightTracker := packets, points, candidates, tracker;
      Repr := {this, points} + packets.Repr + candidates.Repr + tracker.Repr;
      new;
    }

    function MaxAckHeight(): int
      requires Valid()
      reads this, Repr
      ensures MaxAckHeight() == View().heights.filter.best.sample.extraAcked
    {
      maxAckHeightTracker.Get()
    }

    method ResetMaxAckHeightTracker(newHeight: int, newTime: int)
      requires Valid()
      modifies Repr
      ensures Valid() && Repr == old(Repr)
      ensures View() == AfterHeightReset(old(View()), newHeight, newTime)
    {
      maxAckHeightTracker.Reset(newHeight, newTime);
    }

    method SetReduceExtraAckedOnBandwidthIncrease(value: bool)
      requires Valid()
      modifies Repr
      ensures Valid() && Repr == old(Repr)
      ensures View() == old(View()).(heights := old(View()).heights.(reduceOnIncrease := value))
    {
      maxAckHeightTracker.SetReduceExtraAckedOnBandwidthIncrease(value);
    }

    method EnableOverestimateAvoidance()
      requires Valid()
      modifies Repr
      ensures Valid() && Repr == old(Repr)
      ensures View() == WithOverestimateAvoidance(old(View()))
    {
      if overestimateAvoidance {
        return;
      }
      overestimateAvoidance := true;
      maxAckHeightTracker.SetAckAggregationBandwidthThreshold(2.0);
    }

    method OnPacketSent(sentTime: int, packetNumber: int, bytes: int, bytesInFlight: int, isRetransmittable: bool)
      requires Valid() && 0 <= packetNumber
      modifies Repr
      ensures Valid() && fresh(Repr - old(Repr))
      ensures View() == AfterSent(old(View()), sentTime, packetNumber, bytes, bytesInFlight, isRetransmittable)
    {
      hide PacketNumberIndexedQueue.Valid, PacketNumberIndexedQueue.View, RingBuffer.Valid, RingBuffer.Contents;
      hide MaxAckHeightTracker.Valid, MaxAckHeightTracker.View;
      lastSentPacket := packetNumber;
      if !isRetransmittable {
        return;
      }
      totalBytesSent := totalBytesSent + bytes;
      if bytesInFlight == 0 {
        Reopen(sentTime);
      }
      ghost var before := View();
      assert before == BeforeTracking(old(View()), sentTime, packetNumber, bytes, bytesInFlight);
      var snapshot := Snapshot(sentTime, bytes, totalBytesSentAtLastAckedPacket, lastAckedPacketSentTime,
                               lastAckedPacketAckTime,
                               SendState(true, isAppLimited, totalBytesSent, totalBytesAcked, totalBytesLost, bytesInFlight + bytes));
      Track(packetNumber, snapshot);
    }

    // The branch for a send from an idle connection.
    method Reopen(sentTime: int)
      requires Valid()
      modifies Repr
      ensures Valid() && fresh(Repr - old(Repr))
      ensures View() == Reopened(old(View()), sentTime)
    {
      hide PacketNumberIndexedQueue.Valid, PacketNumberIndexedQueue.View, RingBuffer.Valid, RingBuffer.Contents;
      hide MaxAckHeightTracker.Valid, MaxAckHeightTracker.View;
      lastAckedPacketAckTime := sentTime;
      if overestimateAvoidance {
        RestartCandidates(sentTime);
      }
      totalBytesSentAtLastAckedPacket, lastAckedPacketSentTime := totalBytesSent, sentTime;
    }

    method RestartCandidates(sentTime: int)
      requires Valid()
      modifies Repr
      ensures Valid() && fresh(Repr - old(Repr))
      ensures var recent := RecentPoints(NO_POINT, NO_POINT).Updated(sentTime, totalBytesAcked);
              View() == old(View()).(recent := recent, candidates := [recent.newest])
    {
      hide PacketNumberIndexedQueue.Valid, PacketNumberIndexedQueue.View, RingBuffer.Valid, RingBuffer.Contents;
      hide MaxAckHeightTracker.Valid, MaxAckHeightTracker.View;
      recentAckPoints.Clear();
      recentAckPoints.Update(sentTime, totalBytesAcked);
      a0Candidates.Clear();
      SaveCandidate(recentAckPoints.newest);
    }

    method SaveCandidate(p: AckPoint)
      requires Valid()
      modifies Repr
      ensures Valid() && fresh(Repr - old(Repr))
      ensures View() == old(View()).(candidates := old(View()).candidates + [p])
    {
      hide PacketNumberIndexedQueue.Valid, PacketNumberIndexedQueue.View, RingBuffer.Valid, RingBuffer.Contents;
      hide MaxAckHeightTracker.Valid, MaxAckHeightTracker.View;
      a0Candidates.PushBack(p);
      Repr := Repr + a0Candidates.Repr;
    }

    method Track(packetNumber: int, snapshot: Snapshot)
      requires Valid() && 0 <= packetNumber
      modifies Repr
      ensures Valid() && fresh(Repr - old(Repr))
      ensures View() == Tracked(old(View()), packetNumber, snapshot)
    {
      hide RingBuffer.Valid, RingBuffer.Contents, MaxAckHeightTracker.Valid, MaxAckHeightTracker.View;
      var _ := connectionStateMap.Emplace(packetNumber, Some(snapshot));
      Repr := Repr + connectionStateMap.Repr;
    }

    method OnPacketLost(packetNumber: int, bytesLost: int) returns (s: SendState)
      requires Valid()
      modifies this
      ensures Valid() && Repr == old(Repr)
      ensures View() == AfterLost(old(View()), bytesLost) && s == StateOf(old(View()), packetNumber)
    {
      totalBytesLost := totalBytesLost + bytesLost;
      var sentPacket := connectionStateMap.GetEntry(packetNumber);
      if sentPacket.Some? {
        return sentPacket.value.state.(isValid := true);
      }
      return NO_STATE;
    }

    method OnPacketNeutered(packetNumber: int)
      requires Valid()
      modifies Repr
      ensures Valid() && Repr == old(Repr)
      ensures View() == AfterNeutered(old(View()), packetNumber)
    {
      hide PacketNumberIndexedQueue.Valid, PacketNumberIndexedQueue.View, RingBuffer.Valid, RingBuffer.Contents;
      hide MaxAckHeightTracker.Valid, MaxAckHeightTracker.View;
      var removed := connectionStateMap.Remove(packetNumber);
      if removed.Some? {
        totalBytesNeutered := totalBytesNeutered + removed.value.size;
      }
    }

    method OnAppLimited()
      requires Valid()
      modifies this
      ensures Valid() && Repr == old(Repr)
      ensures View() == AfterAppLimited(old(View()))
    {
      isAppLimited := true;
      endOfAppLimitedPhase := lastSentPacket;
    }

    method RemoveObsoletePackets(leastUnacked: int)
      requires Valid()
      modifies Repr
      ensures Valid() && Repr == old(Repr)
      ensures View() == AfterPruned(old(View()), leastUnacked)
    {
      connectionStateMap.RemoveUpTo(leastUnacked);
    }

    // The last candidate with at most the given total, else the first; earlier ones are dropped on the way.
    method ChooseA0Point(total: int) returns (a0: Option<AckPoint>)
      requires Valid()
      modifies a0Candidates.Repr
      ensures Valid()
      ensures a0 == if old(View()).candidates == [] then None else Some(ChosenA0(old(View()).candidates, total))
      ensures View() == if old(View()).candidates == [] then old(View())
                        else old(View()).(candidates := old(View()).candidates[DroppedByChoice(old(View()).candidates, total)..])
    {
      hide PacketNumberIndexedQueue.Valid, PacketNumberIndexedQueue.View, RingBuffer.Valid, RingBuffer.Contents;
      hide MaxAckHeightTracker.Valid, MaxAckHeightTracker.View;
      if a0Candidates.Empty() {
        return None;
      }
      ghost var all := a0Candidates.Contents();
      if a0Candidates.Len() == 1 {
        return Some(a0Candidates.Front());
      }
      for i := 1 to a0Candidates.Len()
        invariant Valid() && a0Candidates.Contents() == all && View() == old(View())
        invariant FirstAbove(all, total, 1) == FirstAbove(all, total, i)
      {
        if a0Candidates.Offset(i).bytes > total {
          a0 := Some(a0Candidates.Offset(i - 1));
          if i > 1 {
            PopCandidates(i - 1);
          }
          return;
        }
      }
      a0 := Some(a0Candidates.Back());
      // The bound of this loop shrinks with every pop.
      var k := 0;
      while k < a0Candidates.Len() - 1
        invariant Valid() && Repr == old(Repr) && a0Candidates.Repr == old(a0Candidates.Repr)
        invariant 0 <= k <= |all| / 2 && a0Candidates.Contents() == all[k..]
        invariant View() == old(View()).(candidates := all[k..])
        decreases |all| - k
      {
        PopCandidates(1);
        k := k + 1;
      }
      assert k == |all| / 2;
    }

    method PopCandidates(n: nat)
      requires Valid() && n <= |a0Candidates.Contents()|
      modifies a0Candidates.Repr
      ensures Valid() && a0Candidates.Repr == old(a0Candidates.Repr)
      ensures a0Candidates.Contents() == old(a0Candidates.Contents())[n..]
      ensures View() == old(View()).(candidates := old(View()).candidates[n..])
    {
      hide PacketNumberIndexedQueue.Valid, PacketNumberIndexedQueue.View, RingBuffer.Valid, RingBuffer.Contents;
      hide MaxAckHeightTracker.Valid, MaxAckHeightTracker.View;
      ghost var all := a0Candidates.Contents();
      for j := 0 to n
        invariant Valid() && a0Candidates.Repr == old(a0Candidates.Repr)
        invariant a0Candidates.Contents() == all[j..]
      {
        var _ := a0Candidates.PopFront();
        assert a0Candidates.Contents() == all[j + 1..];
      }
    }

    method OnPacketAcknowledged(ackTime: int, packetNumber: int) returns (sample: Sample)
      requires Valid()
      modifies Repr
      ensures Valid() && Repr == old(Repr)
      ensures View() == AfterAck(old(View()), ackTime, packetNumber)
      ensures sample == AckSample(old(View()), ackTime, packetNumber)
    {
      hide PacketNumberIndexedQueue.Valid, PacketNumberIndexedQueue.View, RingBuffer.Valid, RingBuffer.Contents;
      hide MaxAckHeightTracker.Valid, MaxAckHeightTracker.View;
      ghost var s := View();
      lastAckedPacket := packetNumber;
      var sentPacket := connectionStateMap.GetEntry(packetNumber);
      if sentPacket.None? {
        return NO_SAMPLE;
      }
      var snapshot := sentPacket.value;
      Count(ackTime, packetNumber, snapshot);
      assert View() == Counted(s, ackTime, packetNumber);
      if snapshot.lastAckedSentTime == 0 {
        return NO_SAMPLE;
      }
      var sendRate := INF_BANDWIDTH;
      if snapshot.sentTime > snapshot.lastAckedSentTime {
        sendRate := BandwidthFromDelta(snapshot.state.totalBytesSent - snapshot.sentAtLastAcked,
                                       snapshot.sentTime - snapshot.lastAckedSentTime);
      }
      var a0 := AckPoint(snapshot.lastAckedAckTime, snapshot.state.totalBytesAcked);
      if overestimateAvoidance {
        var chosen := ChooseA0Point(snapshot.state.totalBytesAcked);
        if chosen.Some? {
          a0 := chosen.value;
        }
      }
      assert a0 == A0(s, packetNumber);
      if ackTime - a0.time <= 0 {
        return NO_SAMPLE;
      }
      var ackRate := BandwidthFromDelta(totalBytesAcked - a0.bytes, ackTime - a0.time);
      return Sample(Min(sendRate, ackRate), ackTime - snapshot.sentTime, sendRate, snapshot.state.(isValid := true));
    }

    method Count(ackTime: int, packetNumber: int, snapshot: Snapshot)
      requires Valid() && lastAckedPacket == packetNumber
      requires packetNumber in View().packets.live && View().packets.live[packetNumber] == snapshot
      modifies this, recentAckPoints
      ensures Valid() && Repr == old(Repr)
      ensures View() == Counted(old(View()), ackTime, packetNumber)
    {
      hide Valid, View, RecentPoints.Updated;
      CountBytes(ackTime, snapshot);
      if overestimateAvoidance {
        AddAckPoint(ackTime);
      }
      LeaveAppLimitedPhase(packetNumber);
    }

    method CountBytes(ackTime: int, snapshot: Snapshot)
      requires Valid()
      modifies this`totalBytesAcked, this`totalBytesSentAtLastAckedPacket, this`lastAckedPacketSentTime, this`lastAckedPacketAckTime
      ensures Valid() && totalBytesAcked == View().totalBytesAcked && overestimateAvoidance == View().overestimateAvoidance
      ensures lastAckedPacket == View().lastAckedPacket && isAppLimited == View().isAppLimited
      ensures endOfAppLimitedPhase == View().endOfAppLimitedPhase
      ensures View() == old(View()).(totalBytesAcked := old(View()).totalBytesAcked + snapshot.size,
                                     sentAtLastAcked := snapshot.state.totalBytesSent,
                                     lastAckedSentTime := snapshot.sentTime, lastAckedAckTime := ackTime)
    {
      hide PacketNumberIndexedQueue.Valid, PacketNumberIndexedQueue.View, RingBuffer.Valid, RingBuffer.Contents,
           MaxAckHeightTracker.Valid, MaxAckHeightTracker.View;
      totalBytesAcked, totalBytesSentAtLastAckedPacket, lastAckedPacketSentTime, lastAckedPacketAckTime :=
        totalBytesAcked + snapshot.size, snapshot.state.totalBytesSent, snapshot.sentTime, ackTime;
    }

    method AddAckPoint(ackTime: int)
      requires Valid()
      modifies recentAckPoints
      ensures Valid() && View() == old(View()).(recent := old(View()).recent.Updated(ackTime, totalBytesAcked))
    {
      hide PacketNumberIndexedQueue.Valid, PacketNumberIndexedQueue.View, RingBuffer.Valid, RingBuffer.Contents;
      hide MaxAckHeightTracker.Valid, MaxAckHeightTracker.View;
      recentAckPoints.Update(ackTime, totalBytesAcked);
    }

    method LeaveAppLimitedPhase(packetNumber: int)
      requires Valid()
      modifies this`isAppLimited
      ensures Valid()
      ensures View() == old(View()).(isAppLimited := old(isAppLimited)
                && !(endOfAppLimitedPhase == INVALID_PACKET || packetNumber > endOfAppLimitedPhase))
    {
      if isAppLimited {
        if endOfAppLimitedPhase == INVALID_PACKET || packetNumber > endOfAppLimitedPhase {
          isAppLimited := false;
        }
      }
    }

    method OnAckEventEnd(bandwidthEstimate: int, isNewMaxBandwidth: bool, roundTripCount: int) returns (extraAcked: int)
      requires Valid()
      modifies Repr
      ensures Valid() && fresh(Repr - old(Repr))
      ensures (View(), extraAcked) == AfterEventEnd(old(View()), bandwidthEstimate, isNewMaxBandwidth, roundTripCount)
    {
      hide PacketNumberIndexedQueue.Valid, PacketNumberIndexedQueue.View, RingBuffer.Valid, RingBuffer.Contents;
      hide MaxAckHeightTracker.Valid, MaxAckHeightTracker.View;
      var newlyAckedBytes := totalBytesAcked - totalBytesAckedAfterLastAckEvent;
      if newlyAckedBytes == 0 {
        return 0;
      }
      ghost var s := View();
      extraAcked := TrackHeight(AckEvent(bandwidthEstimate, isNewMaxBandwidth, roundTripCount, lastSentPacket,
                                         lastAckedPacket, lastAckedPacketAckTime, newlyAckedBytes));
      hide Observed;
      if overestimateAvoidance && extraAcked == 0 {
        SaveCandidate(if recentAckPoints.older.bytes != 0 then recentAckPoints.older else recentAckPoints.newest);
      }
    }

    method TrackHeight(ack: AckEvent) returns (extraAcked: int)
      requires Valid()
      modifies Repr
      ensures Valid() && fresh(Repr - old(Repr))
      ensures var (heights, extra) := Observed(old(View()).heights, ack);
              extraAcked == extra
              && View() == old(View()).(ackedAfterLastEvent := old(View()).totalBytesAcked, heights := heights)
    {
      hide PacketNumberIndexedQueue.Valid, PacketNumberIndexedQueue.View, RingBuffer.Valid, RingBuffer.Contents;
      hide MaxAckHeightTracker.Valid, MaxAckHeightTracker.View, Observed;
      totalBytesAckedAfterLastAckEvent := totalBytesAcked;
      extraAcked := maxAckHeightTracker.Update(ack.bandwidth, ack.isNewMax, ack.round, ack.lastSent, ack.lastAcked,
                                               ack.time, ack.bytes);
      Repr := Repr + maxAckHeightTracker.Repr;
    }

    method OnCongestionEvent(c: Congestion) returns (eventSample: EventSample)
      requires Valid()
      modifies Repr
      ensures Valid() && fresh(Repr - old(Repr))
      ensures (View(), eventSample) == AfterCongestion(old(View()), c)
    {
      hide PacketNumberIndexedQueue.Valid, PacketNumberIndexedQueue.View, RingBuffer.Valid, RingBuffer.Contents,
           MaxAckHeightTracker.Valid, MaxAckHeightTracker.View,
           AfterAcks, AfterLosses, AfterEventEnd;
      var lostState := LoseAll(c.lost);
      if |c.acked| == 0 {
        return NO_EVENT_SAMPLE.(lastPacketSendState := lostState);
      }
      ghost var s1 := View();
      var event, ackedState, maxSendRate := AcknowledgeAll(c.time, c.acked);
      ghost var t := AfterAcks(s1, c.time, c.acked);
      assert t == Tally(View(), event, ackedState, maxSendRate);
      var lastState := ackedState;
      if lostState.isValid {
        if !ackedState.isValid || |c.lost| == 0 {
          lastState := lostState;
        } else if c.lost[|c.lost| - 1].packetNumber > c.acked[|c.acked| - 1].packetNumber {
          lastState := lostState;
        }
      }
      var isNewMaxBandwidth := event.maxBandwidth > c.maxBandwidth;
      var maxBandwidth := Max(c.maxBandwidth, event.maxBandwidth);
      if limitMaxAckHeightTrackerBySendRate {
        maxBandwidth := Max(maxBandwidth, maxSendRate);
      }
      LimitIsKept(s1, c.time, c.acked);
      var extraAcked := OnAckEventEnd(Min(c.upperBound, maxBandwidth), isNewMaxBandwidth, c.round);
      return event.(lastPacketSendState := lastState, extraAcked := extraAcked);
    }

    // The loop over the lost packets.
    method LoseAll(lost: seq<LostPacket>) returns (last: SendState)
      requires Valid()
      modifies this
      ensures Valid() && Repr == old(Repr)
      ensures (View(), last) == AfterLosses(old(View()), lost)
    {
      last := NO_STATE;
      for i := 0 to |lost|
        invariant Valid() && Repr == old(Repr)
        invariant (View(), last) == AfterLosses(old(View()), lost[..i])
      {
        assert lost[..i + 1][..i] == lost[..i];
        var state := OnPacketLost(lost[i].packetNumber, lost[i].bytesLost);
        if state.isValid {
          last := state;
        }
      }
      assert lost[..|lost|] == lost;
    }

    // The loop over the acknowledged packets.
    method AcknowledgeAll(ackTime: int, acked: seq<AckedPacket>)
      returns (event: EventSample, last: SendState, maxSendRate: int)
      requires Valid()
      modifies Repr
      ensures Valid() && Repr == old(Repr)
      ensures Tally(View(), event, last, maxSendRate) == AfterAcks(old(View()), ackTime, acked)
    {
      hide PacketNumberIndexedQueue.Valid, PacketNumberIndexedQueue.View, RingBuffer.Valid, RingBuffer.Contents,
           MaxAckHeightTracker.Valid, MaxAckHeightTracker.View,
           AckSample, AfterAck;
      event, last, maxSendRate := NO_EVENT_SAMPLE, NO_STATE, 0;
      for i := 0 to |acked|
        invariant Valid() && Repr == old(Repr)
        invariant Tally(View(), event, last, maxSendRate) == AfterAcks(old(View()), ackTime, acked[..i])
      {
        assert acked[..i + 1][..i] == acked[..i];
        ghost var t := AfterAcks(old(View()), ackTime, acked[..i]);
        var sample := OnPacketAcknowledged(ackTime, acked[i].packetNumber);
        if sample.state.isValid {
          last := sample.state;
          if sample.rtt != 0 {
            event := event.(rtt := Min(event.rtt, sample.rtt));
          }
          if sample.bandwidth > event.maxBandwidth {
            event := event.(maxBandwidth := sample.bandwidth, isAppLimited := sample.state.isAppLimited);
          }
          if sample.sendRate != INF_BANDWIDTH {
            maxSendRate := Max(maxSendRate, sample.sendRate);
          }
          var inflight := totalBytesAcked - sample.state.totalBytesAcked;
          if inflight > event.maxInflight {
            event := event.(maxInflight := inflight);
          }
        }
        assert Tally(View(), event, last, maxSendRate) == Tallied(t, ackTime, acked[i].packetNumber);
      }
      assert acked[..|acked|] == acked;
    }
  }

  lemma AckKeepsLimit(s: Sampler, time: int, packetNumber: int)
    ensures AfterAck(s, time, packetNumber).limitBySendRate == s.limitBySendRate
  {
    hide DroppedByChoice;
  }

  lemma {:induction false} LimitIsKept(s: Sampler, time: int, acked: seq<AckedPacket>)
    ensures AfterAcks(s, time, acked).sampler.limitBySendRate == s.limitBySendRate
  {
    if acked != [] {
      hide AfterAck, AckSample;
      LimitIsKept(s, time, acked[..|acked| - 1]);
      AckKeepsLimit(AfterAcks(s, time, acked[..|acked| - 1]).sampler, time, acked[|acked| - 1].packetNumber);
    }
  }
}
