// What the sampler's state means in terms of everything that happened to it: the app-limited phase, the
// pruned list of A0 candidates, and the conservation of bytes.
module SamplerHistory {
  import opened AckHeights
  import opened Rates
  import opened SamplerRuns
  import opened SamplerStates

  // ---- The app-limited phase ----

  // The latest call of OnAppLimited, or -1.
  function LatestLimit(ops: seq<Op>): (i: int)
    ensures -1 <= i < |ops|
    ensures 0 <= i ==> ops[i].AppLimited?
  {
    if ops == [] then -1
    else if ops[|ops| - 1].AppLimited? then |ops| - 1
    else LatestLimit(ops[..|ops| - 1])
  }

  ghost predicate AcksTracked(s: Sampler, ops: seq<Op>, j: int)
    requires 0 <= j < |ops|
  {
    ops[j].Acked? && ops[j].packetNumber in Run(s, ops[..j]).packets.live
  }

  // OnAppLimited was called and, since the latest call, no tracked packet sent after it has been acknowledged.
  ghost predicate LimitedByHistory(s: Sampler, ops: seq<Op>) {
    var i := LatestLimit(ops);
    0 <= i && forall j | i < j < |ops| && AcksTracked(s, ops, j) :: ops[j].packetNumber <= Run(s, ops[..i]).lastSentPacket
  }

  lemma PrefixOfPrefix(ops: seq<Op>, n: nat, j: nat)
    requires j <= n <= |ops|
    ensures ops[..n][..j] == ops[..j]
  {
  }

  lemma LimitExtends(s: Sampler, ops: seq<Op>)
    requires ops != [] && !ops[|ops| - 1].AppLimited?
    ensures var n := |ops| - 1;
            var i := LatestLimit(ops);
            LimitedByHistory(s, ops) <==>
              && LimitedByHistory(s, ops[..n])
              && (AcksTracked(s, ops, n) ==> ops[n].packetNumber <= Run(s, ops[..i]).lastSentPacket)
  {
    var n := |ops| - 1;
    var i := LatestLimit(ops);
    if 0 <= i {
      PrefixOfPrefix(ops, n, i);
      forall j | 0 <= j < n ensures AcksTracked(s, ops, j) == AcksTracked(s, ops[..n], j) {
        PrefixOfPrefix(ops, n, j);
      }
    }
  }

  // What one step does to the phase and to the tracked snapshots.
  lemma PhaseStep(s: Sampler, op: Op)
    ensures var r := Step(s, op);
            && r.lastSentPacket == (if op.Sent? then op.packetNumber else s.lastSentPacket)
            && r.endOfAppLimitedPhase == (if op.AppLimited? then s.lastSentPacket else s.endOfAppLimitedPhase)
            && (op.AppLimited? ==> r.isAppLimited)
            && (op.Acked? && op.packetNumber in s.packets.live ==>
                  r.isAppLimited == (s.isAppLimited && s.endOfAppLimitedPhase != INVALID_PACKET
                                     && op.packetNumber <= s.endOfAppLimitedPhase))
            && (!op.AppLimited? && !(op.Acked? && op.packetNumber in s.packets.live) ==> r.isAppLimited == s.isAppLimited)
  {
  }

  // The snapshot of a packet sent in state s.
  predicate Records(n: Snapshot, s: Sampler, op: Op)
    requires op.Sent?
  {
    && n.sentTime == op.time && n.size == op.bytes
    && n.state == SendState(true, s.isAppLimited, s.totalBytesSent + op.bytes, s.totalBytesAcked, s.totalBytesLost,
                            op.bytesInFlight + op.bytes)
    && (if op.bytesInFlight == 0 then n.lastAckedSentTime == n.lastAckedAckTime == op.time && n.sentAtLastAcked == s.totalBytesSent + op.bytes
        else n.lastAckedSentTime == s.lastAckedSentTime && n.lastAckedAckTime == s.lastAckedAckTime
             && n.sentAtLastAcked == s.sentAtLastAcked)
  }

  lemma SnapshotStep(s: Sampler, op: Op, packetNumber: int)
    requires packetNumber in Step(s, op).packets.live
    ensures var n := Step(s, op).packets.live[packetNumber];
            if op.Sent? && op.packetNumber == packetNumber && op.retransmittable && Accepts(s.packets, packetNumber)
            then Records(n, s, op)
            else packetNumber in s.packets.live && n == s.packets.live[packetNumber]
  {
    if op.Sent? {
      SendSnapshot(s, op, packetNumber);
      hide Records;
    } else {
      hide DroppedByChoice, Observed;
    }
  }

  lemma SendSnapshot(s: Sampler, op: Op, packetNumber: int)
    requires op.Sent? && packetNumber in Step(s, op).packets.live
    ensures var n := Step(s, op).packets.live[packetNumber];
            if op.packetNumber == packetNumber && op.retransmittable && Accepts(s.packets, packetNumber) then Records(n, s, op)
            else packetNumber in s.packets.live && n == s.packets.live[packetNumber]
  {
    if !op.retransmittable || !Accepts(s.packets, op.packetNumber) { hide Records; }
  }

  lemma {:induction false} PhaseIsLimitedByHistory(s: Sampler, ops: seq<Op>)
    requires Unused(s) && Ordered(s, ops)
    ensures Run(s, ops).isAppLimited <==> LimitedByHistory(s, ops)
    ensures Run(s, ops).endOfAppLimitedPhase
            == if LatestLimit(ops) < 0 then INVALID_PACKET else Run(s, ops[..LatestLimit(ops)]).lastSentPacket
  {
    if ops != [] {
      hide Step;
      hide Good;
      var n := |ops| - 1;
      PhaseIsLimitedByHistory(s, ops[..n]);
      PhaseStep(Run(s, ops[..n]), ops[n]);
      if !ops[n].AppLimited? {
        TrackedNumbersAreNatural(s, ops[..n]);
        LimitExtends(s, ops);
        if 0 <= LatestLimit(ops) {
          PrefixOfPrefix(ops, n, LatestLimit(ops));
        }
      }
    }
  }

  lemma TrackedNumbersAreNatural(s: Sampler, ops: seq<Op>)
    requires Unused(s) && Ordered(s, ops)
    ensures forall k | k in Run(s, ops).packets.live :: 0 <= k <= Run(s, ops).lastSentPacket
    ensures Run(s, ops).packets.last <= Run(s, ops).lastSentPacket
  {
    RunsAreGood(s, ops);
  }

  // A tracked packet's snapshot records what was true at its own send, which is the k-th step; and it is marked
  // app-limited exactly when the phase was on then, by the history.
  lemma {:induction false} SnapshotRecordsSend(s: Sampler, ops: seq<Op>, packetNumber: int) returns (k: int)
    requires Unused(s) && Ordered(s, ops) && packetNumber in Run(s, ops).packets.live
    ensures 0 <= k < |ops| && ops[k].Sent? && ops[k].packetNumber == packetNumber && ops[k].retransmittable
    ensures Records(Run(s, ops).packets.live[packetNumber], Run(s, ops[..k]), ops[k])
    ensures Run(s, ops).packets.live[packetNumber].state.isAppLimited <==> LimitedByHistory(s, ops[..k])
  {
    assert ops != [];
    hide Step, LimitedByHistory, Records;
    var n := |ops| - 1;
    var before := Run(s, ops[..n]);
    SnapshotStep(before, ops[n], packetNumber);
    if packetNumber in before.packets.live && Run(s, ops).packets.live[packetNumber] == before.packets.live[packetNumber] {
      k := SnapshotRecordsSend(s, ops[..n], packetNumber);
      PrefixOfPrefix(ops, n, k);
    } else {
      PhaseIsLimitedByHistory(s, ops[..n]);
      RecordsLimit(Run(s, ops).packets.live[packetNumber], before, ops[n]);
      k := n;
    }
  }

  lemma RecordsLimit(n: Snapshot, s: Sampler, op: Op)
    requires op.Sent? && Records(n, s, op)
    ensures n.state.isAppLimited == s.isAppLimited
  {
  }

  // ---- The latest reference ----

  // The latest step that acknowledged a tracked packet or sent one from idle; -1 if none did.
  function LatestReference(s: Sampler, ops: seq<Op>): (j: int)
    ensures -1 <= j < |ops|
    ensures 0 <= j ==> ops[j].Acked? || ops[j].Sent?
    ensures 0 <= j && ops[j].Acked? ==> ops[j].packetNumber in Run(s, ops[..j]).packets.live
  {
    if ops == [] then -1
    else
      var n := |ops| - 1;
      var op := ops[n];
      PrefixesAgree(ops, n);
      if (op.Acked? && op.packetNumber in Run(s, ops[..n]).packets.live)
         || (op.Sent? && op.retransmittable && op.bytesInFlight == 0) then n
      else LatestReference(s, ops[..n])
  }

  lemma PrefixesAgree(ops: seq<Op>, n: nat)
    requires n <= |ops|
    ensures forall j | 0 <= j <= n :: ops[..n][..j] == ops[..j]
  {
  }

  // What the next snapshot refers to: the latest acknowledged packet's send and acknowledgement, or the latest send
  // from idle.
  ghost predicate Refers(s: Sampler, ops: seq<Op>, r: Sampler) {
    var j := LatestReference(s, ops);
    if j < 0 then r.lastAckedSentTime == 0 && r.lastAckedAckTime == 0 && r.sentAtLastAcked == 0
    else
      && r.lastAckedAckTime == ops[j].time
      && if ops[j].Acked? then
           var n := Run(s, ops[..j]).packets.live[ops[j].packetNumber];
           r.lastAckedSentTime == n.sentTime && r.sentAtLastAcked == n.state.totalBytesSent
         else r.lastAckedSentTime == ops[j].time && r.sentAtLastAcked == Run(s, ops[..j]).totalBytesSent + ops[j].bytes
  }

  lemma ReferenceStep(s: Sampler, op: Op)
    ensures var r := Step(s, op);
            if op.Acked? && op.packetNumber in s.packets.live then
              var n := s.packets.live[op.packetNumber];
              r.lastAckedAckTime == op.time && r.lastAckedSentTime == n.sentTime && r.sentAtLastAcked == n.state.totalBytesSent
            else if op.Sent? && op.retransmittable && op.bytesInFlight == 0 then
              r.lastAckedAckTime == r.lastAckedSentTime == op.time && r.sentAtLastAcked == s.totalBytesSent + op.bytes
            else
              r.lastAckedAckTime == s.lastAckedAckTime && r.lastAckedSentTime == s.lastAckedSentTime && r.sentAtLastAcked == s.sentAtLastAcked
  {
    hide Observed, DroppedByChoice;
  }

  lemma {:induction false} ReferenceIsLatest(s: Sampler, ops: seq<Op>)
    requires Unused(s)
    ensures Refers(s, ops, Run(s, ops))
  {
    if ops != [] {
      hide Step;
      var n := |ops| - 1;
      ReferenceIsLatest(s, ops[..n]);
      ReferenceStep(Run(s, ops[..n]), ops[n]);
      PrefixesAgree(ops, n);
    }
  }

  // ---- Recent points ----

  function RecentAfter(updates: seq<AckPoint>): RecentPoints {
    if updates == [] then RecentPoints(NO_POINT, NO_POINT)
    else RecentAfter(updates[..|updates| - 1]).Updated(updates[|updates| - 1].time, updates[|updates| - 1].bytes)
  }

  ghost predicate Rising(updates: seq<AckPoint>) {
    (forall p | p in updates :: 0 < p.time) && forall i, j | 0 <= i <= j < |updates| :: updates[i].time <= updates[j].time
  }

  // While the clock does not go back, the newest point is the last update, and the older one the last update at an
  // earlier time, if there was one.
  lemma {:induction false} RecentPointsAreDistinct(updates: seq<AckPoint>) returns (k: int)
    requires Rising(updates) && updates != []
    ensures var r := RecentAfter(updates);
            && r.newest == updates[|updates| - 1] && r.older.time < r.newest.time
            && -1 <= k < |updates| - 1
            && r.older == (if k < 0 then NO_POINT else updates[k])
            && forall j | k < j < |updates| :: updates[j].time == r.newest.time
  {
    var n := |updates| - 1;
    k := -1;
    if n != 0 {
      k := RecentPointsAreDistinct(updates[..n]);
      if updates[n].time > updates[n - 1].time {
        k := n - 1;
      }
    }
  }

  // What the points of a run were updated with since they were last cleared.
  function NextUpdates(updates: seq<AckPoint>, s: Sampler, op: Op): seq<AckPoint> {
    if op.Sent? && op.retransmittable && op.bytesInFlight == 0 then [AckPoint(op.time, s.totalBytesAcked)]
    else if op.Acked? && op.packetNumber in s.packets.live then updates + [AckPoint(op.time, Step(s, op).totalBytesAcked)]
    else updates
  }

  function UpdatesOf(s: Sampler, ops: seq<Op>): seq<AckPoint> {
    if ops == [] then []
    else NextUpdates(UpdatesOf(s, ops[..|ops| - 1]), Run(s, ops[..|ops| - 1]), ops[|ops| - 1])
  }

  // In every run with overestimate avoidance the recent points are the last two at distinct times since the sampler
  // last left idleness, as long as the clock does not go back.
  lemma RecentPointsAreLatest(s: Sampler, ops: seq<Op>) returns (k: int)
    requires Unused(s) && s.overestimateAvoidance && UpdatesOf(s, ops) != [] && Rising(UpdatesOf(s, ops))
    ensures var updates, recent := UpdatesOf(s, ops), Run(s, ops).recent;
            && recent.newest == updates[|updates| - 1] && recent.older.time < recent.newest.time
            && -1 <= k < |updates| - 1
            && recent.older == (if k < 0 then NO_POINT else updates[k])
            && forall j | k < j < |updates| :: updates[j].time == recent.newest.time
  {
    RecentFollowsUpdates(s, ops);
    k := RecentPointsAreDistinct(UpdatesOf(s, ops));
  }

  lemma {:induction false} RecentFollowsUpdates(s: Sampler, ops: seq<Op>)
    requires Unused(s) && s.overestimateAvoidance
    ensures Run(s, ops).recent == RecentAfter(UpdatesOf(s, ops)) && Run(s, ops).overestimateAvoidance
  {
    if ops != [] {
      hide Step, NextUpdates, RecentAfter, Unused;
      var before := ops[..|ops| - 1];
      RecentFollowsUpdates(s, before);
      StepFollowsUpdates(UpdatesOf(s, before), Run(s, before), ops[|ops| - 1]);
    }
  }

  lemma StepFollowsUpdates(updates: seq<AckPoint>, s: Sampler, op: Op)
    requires s.overestimateAvoidance && s.recent == RecentAfter(updates)
    ensures Step(s, op).recent == RecentAfter(NextUpdates(updates, s, op)) && Step(s, op).overestimateAvoidance
  {
    hide Step;
    AvoidanceIsKept(s, op);
    if op.EventEnd? {
      EventEndStep(s, op);
    } else if op.Acked? && op.packetNumber in s.packets.live {
      AckStep(s, op);
      UpdateExtends(updates, AckPoint(op.time, Step(s, op).totalBytesAcked));
      hide RecentAfter;
    } else {
      OtherStep(s, op);
      if op.Sent? { UpdateExtends([], AckPoint(op.time, s.totalBytesAcked)); }
    }
  }

  lemma UpdateExtends(updates: seq<AckPoint>, p: AckPoint)
    ensures RecentAfter(updates + [p]) == RecentAfter(updates).Updated(p.time, p.bytes)
  {
    assert (updates + [p])[..|updates + [p]| - 1] == updates;
  }

  // A point saved at the end of an event is the previous one, the last update at a time before that of the latest; or the
  // latest, if there was none since the sampler last left idleness or it counts no bytes. Leaving idleness saves its own.
  lemma SavedPointIsPrevious(s: Sampler, ops: seq<Op>, op: Op) returns (k: int)
    requires Unused(s) && s.overestimateAvoidance && UpdatesOf(s, ops) != [] && Rising(UpdatesOf(s, ops)) && op.EventEnd?
    ensures var updates, before, after := UpdatesOf(s, ops), Run(s, ops).candidates, Step(Run(s, ops), op).candidates;
            && -1 <= k < |updates| - 1 && (0 <= k ==> updates[k].time < updates[|updates| - 1].time)
            && (forall j | k < j < |updates| :: updates[j].time == updates[|updates| - 1].time)
            && (after == before
                || after == before + [if k < 0 || updates[k].bytes == 0 then updates[|updates| - 1] else updates[k]])
  {
    hide Step, Run, UpdatesOf, Unused;
    k := RecentPointsAreLatest(s, ops);
    EventEndStep(Run(s, ops), op);
  }

  // ---- A0 candidates ----

  ghost predicate Sorted(points: seq<AckPoint>) { forall i, j | 0 <= i <= j < |points| :: points[i].bytes <= points[j].bytes }

  // The last point with at most the given total, else the first point.
  function LastWithin(points: seq<AckPoint>, total: int): AckPoint
    requires points != []
  {
    var n := |points| - 1;
    if n == 0 || points[n].bytes <= total then points[n] else LastWithin(points[..n], total)
  }

  lemma {:induction false} ChoiceIsLastWithin(points: seq<AckPoint>, total: int)
    requires points != [] && Sorted(points)
    ensures ChosenA0(points, total) == LastWithin(points, total)
  {
    var k := FirstAbove(points, total, 1);
    LastWithinAt(points, total, k - 1);
  }

  lemma {:induction false} LastWithinAt(points: seq<AckPoint>, total: int, k: nat)
    requires k < |points| && (k == 0 || points[k].bytes <= total)
    requires forall j | k < j < |points| :: total < points[j].bytes
    ensures LastWithin(points, total) == points[k]
  {
    var n := |points| - 1;
    if k < n { LastWithinAt(points[..n], total, k); }
  }

  // Dropping a prefix is invisible to a search exactly when the new front qualifies or equals the old one.
  lemma {:induction false} DroppingIsInvisible(points: seq<AckPoint>, d: nat, total: int)
    requires d < |points| && Sorted(points)
    ensures LastWithin(points[d..], total) == LastWithin(points, total)
            <==> d == 0 || points[d].bytes <= total || points[d] == points[0]
  {
    var n := |points| - 1;
    if d == 0 {
      assert points[0..] == points;
    } else if points[d].bytes <= total {
      LastWithinKeeps(points, d, total);
    } else {
      LastWithinAt(points[d..], total, 0);
      AllAbove(points, total, d);
    }
  }

  lemma {:induction false} LastWithinKeeps(points: seq<AckPoint>, d: nat, total: int)
    requires d < |points| && points[d].bytes <= total
    ensures LastWithin(points[d..], total) == LastWithin(points, total)
  {
    var n := |points| - 1;
    if d < n && points[n].bytes > total {
      LastWithinKeeps(points[..n], d, total);
      assert points[..n][d..] == points[d..][..n - d];
    }
  }

  // When the d-th point is above the total, the search ends at a smaller total or at the very first point.
  lemma {:induction false} AllAbove(points: seq<AckPoint>, total: int, d: nat)
    requires d < |points| && Sorted(points) && total < points[d].bytes
    ensures LastWithin(points, total).bytes <= total || LastWithin(points, total) == points[0]
    ensures total < points[0].bytes ==> LastWithin(points, total) == points[0]
  {
    var n := |points| - 1;
    if 0 < n && points[n].bytes > total {
      if d < n {
        AllAbove(points[..n], total, d);
      } else {
        SearchEnds(points[..n], total);
      }
    }
  }

  lemma {:induction false} SearchEnds(points: seq<AckPoint>, total: int)
    requires points != [] && Sorted(points)
    ensures LastWithin(points, total).bytes <= total || LastWithin(points, total) == points[0]
    ensures total < points[0].bytes ==> LastWithin(points, total) == points[0]
  {
    var n := |points| - 1;
    if 0 < n && points[n].bytes > total {
      SearchEnds(points[..n], total);
    }
  }

  // Every candidate saved since the list was last cleared, and the largest total asked about since.
  datatype Saved = Saved(all: seq<AckPoint>, asked: int)

  function ArgumentOf(s: Sampler, packetNumber: int): int
    requires packetNumber in s.packets.live
  {
    s.packets.live[packetNumber].state.totalBytesAcked
  }

  function NextSaved(h: Saved, s: Sampler, op: Op): Saved {
    var r := Step(s, op);
    if op.Sent? && op.retransmittable && op.bytesInFlight == 0 then Saved(r.candidates, -1)
    else if op.EventEnd? && |s.candidates| < |r.candidates| then h.(all := h.all + [r.candidates[|r.candidates| - 1]])
    else if op.Acked? && Asks(s, op.packetNumber) then h.(asked := Max(h.asked, ArgumentOf(s, op.packetNumber)))
    else h
  }

  function SavedBy(s: Sampler, ops: seq<Op>): Saved {
    if ops == [] then Saved([], -1)
    else NextSaved(SavedBy(s, ops[..|ops| - 1]), Run(s, ops[..|ops| - 1]), ops[|ops| - 1])
  }

  ghost predicate IsSuffix(points: seq<AckPoint>, all: seq<AckPoint>) {
    |points| <= |all| && points == all[|all| - |points|..]
  }

  lemma DropIsSuffix(points: seq<AckPoint>, all: seq<AckPoint>, n: nat)
    requires IsSuffix(points, all) && n <= |points|
    ensures IsSuffix(points[n..], all)
  {
  }

  lemma PushIsSuffix(points: seq<AckPoint>, all: seq<AckPoint>, p: AckPoint)
    requires IsSuffix(points, all)
    ensures IsSuffix(points + [p], all + [p])
  {
  }

  // The candidates are a suffix of everything saved; what was dropped lies before a point already asked for.
  ghost predicate SuffixOf(h: Saved, candidates: seq<AckPoint>, recent: RecentPoints, total: int) {
    && Sorted(h.all)
    && IsSuffix(candidates, h.all)
    && (h.all != [] ==> candidates != [] && h.all[|h.all| - 1].bytes <= recent.LessRecent().bytes)
    && (0 < |candidates| < |h.all| ==> candidates[0].bytes <= h.asked)
    && 0 <= recent.older.bytes <= recent.newest.bytes <= total
  }

  ghost predicate Suffix(h: Saved, s: Sampler) { SuffixOf(h, s.candidates, s.recent, s.totalBytesAcked) }

  lemma DropsOnlyQualified(candidates: seq<AckPoint>, total: int)
    requires candidates != []
    ensures var n := DroppedByChoice(candidates, total);
            n <= FirstAbove(candidates, total, 1) - 1 && (0 < n ==> candidates[n].bytes <= total)
  {
  }

  lemma AskingKeepsSuffix(h: Saved, candidates: seq<AckPoint>, recent: RecentPoints, total: int, argument: int)
    requires SuffixOf(h, candidates, recent, total) && candidates != []
    ensures SuffixOf(h.(asked := Max(h.asked, argument)), candidates[DroppedByChoice(candidates, argument)..], recent, total)
  {
    DropsOnlyQualified(candidates, argument);
    hide SuffixOf, DroppedByChoice;
    DropKeepsSuffix(h, candidates, recent, total, DroppedByChoice(candidates, argument), Max(h.asked, argument));
  }

  lemma DropKeepsSuffix(h: Saved, candidates: seq<AckPoint>, recent: RecentPoints, total: int, n: nat, asked: int)
    requires SuffixOf(h, candidates, recent, total) && n < |candidates|
    requires h.asked <= asked && (0 < n ==> candidates[n].bytes <= asked)
    ensures SuffixOf(h.(asked := asked), candidates[n..], recent, total)
  {
    DropIsSuffix(candidates, h.all, n);
    assert candidates[n..][0] == candidates[n];
    SuffixIsNoLonger(candidates, h.all);
    hide Sorted, IsSuffix, RecentPoints.LessRecent;
  }

  lemma SuffixIsNoLonger(points: seq<AckPoint>, all: seq<AckPoint>)
    requires IsSuffix(points, all)
    ensures |points| <= |all|
  {
  }

  lemma PointKeepsSuffix(h: Saved, candidates: seq<AckPoint>, recent: RecentPoints, total: int, time: int, total': int)
    requires SuffixOf(h, candidates, recent, total) && total <= total'
    ensures SuffixOf(h, candidates, recent.Updated(time, total'), total')
  {
    hide Sorted;
  }

  lemma PushKeepsSuffix(h: Saved, candidates: seq<AckPoint>, recent: RecentPoints, total: int)
    requires SuffixOf(h, candidates, recent, total)
    ensures SuffixOf(h.(all := h.all + [recent.LessRecent()]), candidates + [recent.LessRecent()], recent, total)
  {
    SortedPush(h.all, recent.LessRecent());
    PushIsSuffix(candidates, h.all, recent.LessRecent());
    SuffixIsNoLonger(candidates, h.all);
    hide Sorted, IsSuffix;
  }

  lemma SortedPush(points: seq<AckPoint>, p: AckPoint)
    requires Sorted(points) && (points != [] ==> points[|points| - 1].bytes <= p.bytes)
    ensures Sorted(points + [p])
  {
  }

  lemma ClearedIsSuffix(time: int, total: int)
    requires 0 <= total
    ensures var recent := RecentPoints(NO_POINT, NO_POINT).Updated(time, total);
            SuffixOf(Saved([recent.newest], -1), [recent.newest], recent, total)
  {
  }

  // What acknowledging a tracked packet does to points and candidates.
  lemma AckStep(s: Sampler, op: Op)
    requires op.Acked? && op.packetNumber in s.packets.live && s.overestimateAvoidance
    ensures var r, snapshot := Step(s, op), s.packets.live[op.packetNumber];
            && r.totalBytesAcked == s.totalBytesAcked + snapshot.size
            && r.recent == s.recent.Updated(op.time, r.totalBytesAcked)
            && r.candidates == (if Asks(s, op.packetNumber)
                                then s.candidates[DroppedByChoice(s.candidates, ArgumentOf(s, op.packetNumber))..]
                                else s.candidates)
  {
  }

  lemma AckKeepsSuffix(h: Saved, s: Sampler, op: Op)
    requires Suffix(h, s) && op.Acked? && op.packetNumber in s.packets.live && 0 <= s.packets.live[op.packetNumber].size
    requires s.overestimateAvoidance
    ensures Suffix(NextSaved(h, s, op), Step(s, op))
  {
    hide Step;
    hide SuffixOf;
    AckStep(s, op);
    var total := s.totalBytesAcked + s.packets.live[op.packetNumber].size;
    PointKeepsSuffix(h, s.candidates, s.recent, s.totalBytesAcked, op.time, total);
    if Asks(s, op.packetNumber) {
      AskingKeepsSuffix(h, s.candidates, s.recent.Updated(op.time, total), total, ArgumentOf(s, op.packetNumber));
    }
  }

  lemma EventEndKeepsSuffix(h: Saved, s: Sampler, op: Op)
    requires Suffix(h, s) && op.EventEnd?
    ensures Suffix(NextSaved(h, s, op), Step(s, op))
  {
    hide Step;
    hide SuffixOf;
    EventEndStep(s, op);
    PushKeepsSuffix(h, s.candidates, s.recent, s.totalBytesAcked);
  }

  lemma EventEndStep(s: Sampler, op: Op)
    requires op.EventEnd?
    ensures var r := Step(s, op);
            && r.totalBytesAcked == s.totalBytesAcked && r.recent == s.recent
            && (r.candidates == s.candidates || r.candidates == s.candidates + [s.recent.LessRecent()])
  {
    hide Observed;
  }

  // What the other steps do to points and candidates.
  lemma OtherStep(s: Sampler, op: Op)
    requires s.overestimateAvoidance && !op.EventEnd? && (op.Acked? ==> op.packetNumber !in s.packets.live)
    ensures var r := Step(s, op);
            && r.totalBytesAcked == s.totalBytesAcked
            && if op.Sent? && op.retransmittable && op.bytesInFlight == 0
               then r.recent == RecentPoints(NO_POINT, NO_POINT).Updated(op.time, s.totalBytesAcked)
                    && r.candidates == [r.recent.newest]
               else r.recent == s.recent && r.candidates == s.candidates
  {
  }

  lemma OtherStepsKeepSuffix(h: Saved, s: Sampler, op: Op)
    requires Suffix(h, s) && !op.EventEnd? && (op.Acked? ==> op.packetNumber !in s.packets.live)
    requires s.overestimateAvoidance && 0 <= s.totalBytesAcked
    ensures Suffix(NextSaved(h, s, op), Step(s, op))
  {
    hide Step;
    hide SuffixOf;
    OtherStep(s, op);
    if op.Sent? { ClearedIsSuffix(op.time, s.totalBytesAcked); }
  }

  lemma AvoidanceIsKept(s: Sampler, op: Op)
    ensures Step(s, op).overestimateAvoidance == s.overestimateAvoidance
  {
  }

  lemma {:induction false} CandidatesAreSuffixOfSaved(s: Sampler, ops: seq<Op>)
    requires Unused(s) && Ordered(s, ops) && s.overestimateAvoidance
    ensures Suffix(SavedBy(s, ops), Run(s, ops)) && Run(s, ops).overestimateAvoidance
  {
    if ops != [] {
      hide Suffix;
      hide Step;
      hide NextSaved;
      var before, op := ops[..|ops| - 1], ops[|ops| - 1];
      CandidatesAreSuffixOfSaved(s, before);
      var r, h := Run(s, before), SavedBy(s, before);
      AvoidanceIsKept(r, op);
      if op.EventEnd? {
        EventEndKeepsSuffix(h, r, op);
      } else if op.Acked? && op.packetNumber in r.packets.live {
        SizesAreNatural(s, before, op.packetNumber);
        AckKeepsSuffix(h, r, op);
      } else {
        TotalIsNatural(h, r);
        OtherStepsKeepSuffix(h, r, op);
      }
    }
  }

  lemma TotalIsNatural(h: Saved, s: Sampler)
    requires Suffix(h, s)
    ensures 0 <= s.totalBytesAcked
  {
  }

  lemma SizesAreNatural(s: Sampler, ops: seq<Op>, packetNumber: int)
    requires Unused(s) && Ordered(s, ops) && packetNumber in Run(s, ops).packets.live
    ensures 0 <= Run(s, ops).packets.live[packetNumber].size
  {
    RunsAreGood(s, ops);
    assert GoodSnapshot(CurvesOf(s, ops), Run(s, ops), Run(s, ops).packets.live[packetNumber]);
  }

  // Whenever an acknowledgement asks for an A0 point, candidates are sorted and the answer is the one a search of
  // the full list since the last clear would give, exactly when nothing was dropped, or the front candidate
  // qualifies, or it equals the first one ever saved; the chosen point itself stays.
  lemma PruningIsInvisible(s: Sampler, ops: seq<Op>, packetNumber: int)
    requires Unused(s) && Ordered(s, ops) && s.overestimateAvoidance && Asks(Run(s, ops), packetNumber)
    ensures var r, all := Run(s, ops), SavedBy(s, ops).all;
            var argument := ArgumentOf(r, packetNumber);
            && Sorted(r.candidates) && all != []
            && (A0(r, packetNumber) == LastWithin(all, argument)
                <==> |r.candidates| == |all| || r.candidates[0].bytes <= argument || r.candidates[0] == all[0])
            && A0(r, packetNumber) in AfterAck(r, 0, packetNumber).candidates
  {
    CandidatesAreSuffixOfSaved(s, ops);
    ChoiceAmongSuffix(SavedBy(s, ops), Run(s, ops), packetNumber);
    ChosenStays(Run(s, ops), packetNumber);
  }

  lemma ChoiceAmongSuffix(h: Saved, s: Sampler, packetNumber: int)
    requires Suffix(h, s) && Asks(s, packetNumber)
    ensures var argument := ArgumentOf(s, packetNumber);
            && Sorted(s.candidates) && h.all != []
            && (A0(s, packetNumber) == LastWithin(h.all, argument)
                <==> |s.candidates| == |h.all| || s.candidates[0].bytes <= argument || s.candidates[0] == h.all[0])
  {
    hide Sorted;
    hide LastWithin;
    hide ChosenA0;
    var d := |h.all| - |s.candidates|;
    var argument := ArgumentOf(s, packetNumber);
    SuffixIsSorted(h.all, d);
    ChoiceIsLastWithin(s.candidates, argument);
    DroppingIsInvisible(h.all, d, argument);
  }

  lemma SuffixIsSorted(points: seq<AckPoint>, d: nat)
    requires Sorted(points) && d <= |points|
    ensures Sorted(points[d..])
  {
  }

  lemma ChosenStays(s: Sampler, packetNumber: int)
    requires Asks(s, packetNumber)
    ensures A0(s, packetNumber) in AfterAck(s, 0, packetNumber).candidates
  {
    var argument := ArgumentOf(s, packetNumber);
    DropsOnlyQualified(s.candidates, argument);
    var n, k := DroppedByChoice(s.candidates, argument), FirstAbove(s.candidates, argument, 1) - 1;
    assert AfterAck(s, 0, packetNumber).candidates == s.candidates[n..];
    assert s.candidates[n..][k - n] == A0(s, packetNumber);
  }

  // What an acknowledgement leaves of the candidates. It prunes only when it asks for a point: for a tracked packet sent after
  // a reference point was known. While some candidate is above the argument the chosen one becomes the front, and none but
  // the front is within the argument any more; when all but possibly the front are within it, the later half is left, the
  // middle one included, since the loop's bound shrinks with the list.
  lemma PruningLeavesExactly(s: Sampler, ops: seq<Op>, packetNumber: int)
    requires Unused(s) && Ordered(s, ops) && s.overestimateAvoidance
    ensures LeavesExactly(Run(s, ops), packetNumber, AfterAck(Run(s, ops), 0, packetNumber).candidates)
  {
    hide Unused, LeavesExactly, SuffixOf, AfterAck;
    CandidatesAreSuffixOfSaved(s, ops);
    if Asks(Run(s, ops), packetNumber) { PruningIsInvisible(s, ops, packetNumber); }
    hide Run;
    PruneLeaves(Run(s, ops), packetNumber);
  }

  predicate LeavesExactly(s: Sampler, packetNumber: int, after: seq<AckPoint>) {
    var before, n := s.candidates, |s.candidates|;
    if packetNumber in s.packets.live && s.packets.live[packetNumber].lastAckedSentTime != 0 && n != 0 then
      var argument := ArgumentOf(s, packetNumber);
      && after != [] && |after| <= n && after == before[n - |after|..]
      && if n == 1 || before[n - 1].bytes <= argument then 2 * |after| == n + n % 2
         else after[0] == A0(s, packetNumber) && forall j | 1 <= j < |after| :: argument < after[j].bytes
    else after == before
  }

  lemma PruneLeaves(s: Sampler, packetNumber: int)
    requires s.overestimateAvoidance && (Asks(s, packetNumber) ==> Sorted(s.candidates))
    ensures LeavesExactly(s, packetNumber, AfterAck(s, 0, packetNumber).candidates)
  {
    if Asks(s, packetNumber) {
      var before, argument := s.candidates, ArgumentOf(s, packetNumber);
      var k := FirstAbove(before, argument, 1);
      assert AfterAck(s, 0, packetNumber).candidates == before[DroppedByChoice(before, argument)..];
    } else {
      hide A0;
    }
  }

  // In particular for arguments that do not decrease, as those of packets acknowledged in sending order.
  lemma PruningIsInvisibleToRisingQueries(s: Sampler, ops: seq<Op>, packetNumber: int)
    requires Unused(s) && Ordered(s, ops) && s.overestimateAvoidance && Asks(Run(s, ops), packetNumber)
    requires SavedBy(s, ops).asked <= ArgumentOf(Run(s, ops), packetNumber)
    ensures SavedBy(s, ops).all != []
    ensures A0(Run(s, ops), packetNumber) == LastWithin(SavedBy(s, ops).all, ArgumentOf(Run(s, ops), packetNumber))
  {
    CandidatesAreSuffixOfSaved(s, ops);
    PruningIsInvisible(s, ops, packetNumber);
  }

  // The first point saved stays the first until the sampler leaves idleness again.
  predicate KeepsFirst(op: Op) { !(op.Sent? && op.retransmittable && op.bytesInFlight == 0) }

  lemma {:induction false} FirstSavedStays(s: Sampler, a: seq<Op>, b: seq<Op>)
    requires SavedBy(s, a).all != [] && forall i | 0 <= i < |b| :: KeepsFirst(b[i])
    ensures SavedBy(s, a + b).all != [] && SavedBy(s, a + b).all[0] == SavedBy(s, a).all[0]
  {
    hide NextSaved, Run, KeepsFirst, SavedBy;
    if b == [] {
      assert a + b == a;
    } else {
      var n := |b| - 1;
      FirstSavedStays(s, a, b[..n]);
      StepKeepsFirst(SavedBy(s, a + b[..n]), Run(s, a + b[..n]), b[n]);
      SavedByExtends(s, a + b[..n], b[n]);
      assert a + b == a + b[..n] + [b[n]];
    }
  }

  lemma SavedByExtends(s: Sampler, ops: seq<Op>, op: Op)
    ensures SavedBy(s, ops + [op]) == NextSaved(SavedBy(s, ops), Run(s, ops), op)
  {
    assert (ops + [op])[..|ops + [op]| - 1] == ops;
  }

  lemma StepKeepsFirst(h: Saved, s: Sampler, op: Op)
    requires h.all != [] && KeepsFirst(op)
    ensures NextSaved(h, s, op).all != [] && NextSaved(h, s, op).all[0] == h.all[0]
  {
    hide Step;
  }

  // A front candidate above the argument, other than the first point saved, is the answer, and not the full list's,
  // which counts no more bytes than the argument or is that first point.
  lemma WronglyAnswered(s: Sampler, ops: seq<Op>, packetNumber: int)
    requires Unused(s) && Ordered(s, ops) && s.overestimateAvoidance && Asks(Run(s, ops), packetNumber)
    requires SavedBy(s, ops).all != [] && Run(s, ops).candidates[0] != SavedBy(s, ops).all[0]
    requires ArgumentOf(Run(s, ops), packetNumber) < Run(s, ops).candidates[0].bytes
    ensures var answer := LastWithin(SavedBy(s, ops).all, ArgumentOf(Run(s, ops), packetNumber));
            && A0(Run(s, ops), packetNumber) == Run(s, ops).candidates[0] != answer
            && (answer.bytes <= ArgumentOf(Run(s, ops), packetNumber) || answer == SavedBy(s, ops).all[0])
  {
    hide Run, SavedBy, Ordered, Unused, LastWithin, Sorted;
    CandidatesAreSuffixOfSaved(s, ops);
    PruningIsInvisible(s, ops, packetNumber);
    SortedSaved(SavedBy(s, ops), Run(s, ops));
    var candidates, argument := Run(s, ops).candidates, ArgumentOf(Run(s, ops), packetNumber);
    FrontIsChosen(candidates, argument);
    SearchEnds(SavedBy(s, ops).all, argument);
  }

  lemma SortedSaved(h: Saved, s: Sampler)
    requires Suffix(h, s)
    ensures Sorted(h.all) && (|s.candidates| == |h.all| ==> s.candidates == h.all)
  {
  }

  lemma FrontIsChosen(points: seq<AckPoint>, total: int)
    requires points != [] && Sorted(points) && total < points[0].bytes
    ensures ChosenA0(points, total) == points[0]
  {
    assert 1 < |points| ==> points[0].bytes <= points[1].bytes;
  }

  // ---- Conservation of bytes ----

  // The sizes of all retransmittable packets sent, those not resolved yet, the bytes of packets that were
  // resolved after their snapshot had been pruned, and the bytes credited that no unresolved packet accounts for.
  datatype Ledger = Ledger(sizes: map<int, int>, unresolved: map<int, int>, forgotten: int, excess: int)

  function NextLedger(l: Ledger, s: Sampler, op: Op): Ledger {
    var r := l.(excess := l.excess + Miscredited(l, s, op));
    match op
    case Sent(_, pn, bytes, _, retransmittable) =>
      if retransmittable then r.(sizes := l.sizes[pn := bytes], unresolved := l.unresolved[pn := bytes]) else r
    case Acked(_, pn) => Resolved(r, s, pn)
    case Neutered(pn) => Resolved(r, s, pn)
    case Lost(pn, _) => r.(unresolved := l.unresolved - {pn})
    case _ => r
  }

  function Resolved(l: Ledger, s: Sampler, packetNumber: int): Ledger {
    if packetNumber !in l.unresolved then l
    else l.(unresolved := l.unresolved - {packetNumber},
            forgotten := l.forgotten + if packetNumber in s.packets.live then 0 else l.unresolved[packetNumber])
  }

  // What a step adds to the acknowledged, lost and neutered totals beyond the size of a packet it resolves: the
  // size of a tracked packet that was resolved before, or what a loss reports too much (or, negative, too little).
  function Miscredited(l: Ledger, s: Sampler, op: Op): int {
    match op
    case Acked(_, pn) => CreditedAgain(l, s, pn)
    case Neutered(pn) => CreditedAgain(l, s, pn)
    case Lost(pn, bytes) => bytes - if pn in l.unresolved then l.unresolved[pn] else 0
    case _ => 0
  }

  function CreditedAgain(l: Ledger, s: Sampler, packetNumber: int): int {
    if packetNumber in s.packets.live && packetNumber !in l.unresolved then s.packets.live[packetNumber].size else 0
  }

  function LedgerOf(s: Sampler, ops: seq<Op>): Ledger {
    if ops == [] then Ledger(map[], map[], 0, 0)
    else NextLedger(LedgerOf(s, ops[..|ops| - 1]), Run(s, ops[..|ops| - 1]), ops[|ops| - 1])
  }

  // The sum of the entries numbered below n.
  function Sum(m: map<int, int>, n: nat): int {
    if n == 0 then 0 else Sum(m, n - 1) + if n - 1 in m then m[n - 1] else 0
  }

  lemma {:induction false} SumIgnores(m: map<int, int>, m': map<int, int>, n: nat)
    requires forall k | 0 <= k < n :: (k in m <==> k in m') && (k in m ==> m[k] == m'[k])
    ensures Sum(m, n) == Sum(m', n)
  {
    if n != 0 { SumIgnores(m, m', n - 1); }
  }

  lemma {:induction false} SumRemoves(m: map<int, int>, k: nat, n: nat)
    requires k in m && k < n
    ensures Sum(m - {k}, n) == Sum(m, n) - m[k]
  {
    if k == n - 1 { SumIgnores(m, m - {k}, k); } else { SumRemoves(m, k, n - 1); }
  }

  lemma {:induction false} SumExtends(m: map<int, int>, n: nat, n': nat)
    requires n <= n' && forall k | k in m :: k < n
    ensures Sum(m, n') == Sum(m, n)
  {
    if n < n' { SumExtends(m, n, n' - 1); }
  }

  lemma {:induction false} SumIsNotNegative(m: map<int, int>, n: nat)
    requires forall k | k in m :: 0 <= m[k]
    ensures 0 <= Sum(m, n)
  {
    if n != 0 { SumIsNotNegative(m, n - 1); }
  }

  ghost predicate Balanced(l: Ledger, s: Sampler) {
    && INVALID_PACKET <= s.lastSentPacket
    && (forall k | k in l.sizes :: 0 <= k <= s.lastSentPacket && 0 <= l.sizes[k])
    && (forall k | k in l.unresolved :: k in l.sizes && l.unresolved[k] == l.sizes[k])
    && (forall k | k in s.packets.live :: k in l.sizes && s.packets.live[k].size == l.sizes[k])
    && 0 <= l.forgotten
    && Credited(s) + Outstanding(l, s) + l.forgotten == s.totalBytesSent + l.excess
  }

  function Credited(s: Sampler): int { s.totalBytesAcked + s.totalBytesLost + s.totalBytesNeutered }

  function Outstanding(l: Ledger, s: Sampler): int
    requires INVALID_PACKET <= s.lastSentPacket
  {
    Sum(l.unresolved, s.lastSentPacket + 1)
  }

  lemma SumAdds(m: map<int, int>, k: nat, v: int)
    requires k !in m
    ensures Sum(m[k := v], k + 1) == Sum(m, k) + v
  {
    SumIgnores(m, m[k := v], k);
  }

  // What a send does to the totals and sizes.
  lemma SendStep(s: Sampler, op: Op)
    requires op.Sent?
    ensures var r := Step(s, op);
            && r.totalBytesAcked == s.totalBytesAcked && r.totalBytesLost == s.totalBytesLost
            && r.totalBytesNeutered == s.totalBytesNeutered && r.lastSentPacket == op.packetNumber
            && r.totalBytesSent == s.totalBytesSent + (if op.retransmittable then op.bytes else 0)
            && (r.packets == s.packets
                || (op.retransmittable && r.packets.live.Keys == s.packets.live.Keys + {op.packetNumber}
                    && r.packets.live[op.packetNumber].size == op.bytes
                    && forall k | k in s.packets.live && k != op.packetNumber :: r.packets.live[k] == s.packets.live[k]))
  {
  }

  lemma SendKeepsBalance(l: Ledger, s: Sampler, op: Op)
    requires Balanced(l, s) && op.Sent? && Sendable(s, op)
    ensures Balanced(NextLedger(l, s, op), Step(s, op))
  {
    hide Reopened;
    hide Sum;
    var pn := op.packetNumber;
    assert forall k | k in l.unresolved :: k < s.lastSentPacket + 1;
    SumAdds(l.unresolved, pn, op.bytes);
    SumExtends(l.unresolved, s.lastSentPacket + 1, pn);
    SumExtends(l.unresolved, s.lastSentPacket + 1, pn + 1);
    SendStep(s, op);
  }

  // What resolving a packet does to the totals and sizes.
  lemma ResolutionStep(s: Sampler, op: Op)
    requires op.Acked? || op.Neutered? || op.Lost?
    ensures var r := Step(s, op);
            && r.totalBytesSent == s.totalBytesSent && r.lastSentPacket == s.lastSentPacket
            && r.packets.live.Keys <= s.packets.live.Keys
            && (forall k | k in r.packets.live :: r.packets.live[k] == s.packets.live[k])
            && Credited(r) == Credited(s) + if op.Lost? then op.bytes
                                            else if op.packetNumber in s.packets.live then s.packets.live[op.packetNumber].size
                                            else 0
  {
    hide DroppedByChoice;
  }

  lemma ResolutionKeepsBalance(l: Ledger, s: Sampler, op: Op)
    requires Balanced(l, s) && (op.Acked? || op.Neutered? || op.Lost?)
    ensures Balanced(NextLedger(l, s, op), Step(s, op))
  {
    ResolutionStep(s, op);
    hide Step, Credited;
    if op.packetNumber in l.unresolved {
      SumRemoves(l.unresolved, op.packetNumber, s.lastSentPacket + 1);
    } else {
      assert l.unresolved - {op.packetNumber} == l.unresolved;
    }
  }

  lemma OtherStepsKeepBalance(l: Ledger, s: Sampler, op: Op)
    requires Balanced(l, s) && (op.AppLimited? || op.Pruned? || op.EventEnd? || op.HeightReset?)
    ensures Balanced(NextLedger(l, s, op), Step(s, op))
  {
  }

  // The books over every run: the bytes acknowledged, lost and neutered, those still unresolved and those resolved
  // after pruning are exactly the bytes sent and those miscredited. So more is credited than was sent exactly when
  // more was miscredited than is still unresolved or forgotten.
  lemma {:induction false} BytesAreAccounted(s: Sampler, ops: seq<Op>)
    requires Unused(s) && Ordered(s, ops)
    ensures Balanced(LedgerOf(s, ops), Run(s, ops)) && 0 <= Outstanding(LedgerOf(s, ops), Run(s, ops))
    ensures var r, l := Run(s, ops), LedgerOf(s, ops);
            Credited(r) <= r.totalBytesSent <==> l.excess <= Outstanding(l, r) + l.forgotten
  {
    if ops != [] {
      hide Sum;
      hide Step;
      hide NextLedger;
      var before, op := ops[..|ops| - 1], ops[|ops| - 1];
      BytesAreAccounted(s, before);
      var l, r := LedgerOf(s, before), Run(s, before);
      if op.Sent? {
        SendKeepsBalance(l, r, op);
      } else if op.Acked? || op.Neutered? || op.Lost? {
        ResolutionKeepsBalance(l, r, op);
      } else {
        OtherStepsKeepBalance(l, r, op);
      }
    }
    SumIsNotNegative(LedgerOf(s, ops).unresolved, Run(s, ops).lastSentPacket + 1);
  }

  // The k-th step of the run credits bytes twice or wrongly.
  predicate Miscredits(s: Sampler, ops: seq<Op>, k: nat)
    requires k < |ops|
  {
    Miscredited(LedgerOf(s, ops[..k]), Run(s, ops[..k]), ops[k]) != 0
  }

  // Every byte sent has been acknowledged, lost or neutered once, or is unresolved or forgotten.
  ghost predicate Conserved(s: Sampler, ops: seq<Op>)
    requires Unused(s) && Ordered(s, ops)
  {
    BytesAreAccounted(s, ops);
    var r, l := Run(s, ops), LedgerOf(s, ops);
    Credited(r) + Outstanding(l, r) + l.forgotten == r.totalBytesSent
  }

  lemma {:induction false} PrefixIsOrdered(s: Sampler, ops: seq<Op>, k: nat)
    requires Ordered(s, ops) && k <= |ops|
    ensures Ordered(s, ops[..k])
  {
    assert ops[..k] + ops[k..] == ops;
    RunSplits(s, ops[..k], ops[k..]);
  }

  lemma ExcessGrowsByMiscredit(s: Sampler, ops: seq<Op>, k: nat)
    requires k < |ops|
    ensures LedgerOf(s, ops[..k + 1]).excess
            == LedgerOf(s, ops[..k]).excess + Miscredited(LedgerOf(s, ops[..k]), Run(s, ops[..k]), ops[k])
  {
    assert ops[..k + 1][..k] == ops[..k];
  }

  lemma {:induction false} NoMiscreditNoExcess(s: Sampler, ops: seq<Op>, k: nat)
    requires k <= |ops| && forall j | 0 <= j < k :: !Miscredits(s, ops, j)
    ensures LedgerOf(s, ops[..k]).excess == 0
  {
    if k != 0 {
      NoMiscreditNoExcess(s, ops, k - 1);
      ExcessGrowsByMiscredit(s, ops, k - 1);
      assert !Miscredits(s, ops, k - 1);
    }
  }

  // Bytes are conserved all along a run exactly when no step of it credits bytes twice or wrongly: no tracked packet
  // is acknowledged or neutered once it is resolved, and every loss reports an unresolved packet's size, or nothing.
  lemma BytesAreConservedExactlyWhenCreditedOnce(s: Sampler, ops: seq<Op>)
    requires Unused(s) && Ordered(s, ops)
    ensures forall k | 0 <= k <= |ops| :: Ordered(s, ops[..k])
    ensures (forall k | 0 <= k <= |ops| :: Conserved(s, ops[..k])) <==> (forall k | 0 <= k < |ops| :: !Miscredits(s, ops, k))
  {
    hide LedgerOf, Run, Unused, Miscredited;
    forall k | 0 <= k <= |ops|
      ensures Ordered(s, ops[..k]) && (Conserved(s, ops[..k]) <==> LedgerOf(s, ops[..k]).excess == 0)
    {
      PrefixIsOrdered(s, ops, k);
      BytesAreAccounted(s, ops[..k]);
    }
    if forall k | 0 <= k <= |ops| :: Conserved(s, ops[..k]) {
      forall k | 0 <= k < |ops| ensures !Miscredits(s, ops, k) {
        ExcessGrowsByMiscredit(s, ops, k);
        assert Conserved(s, ops[..k]) && Conserved(s, ops[..k + 1]);
      }
    }
    if forall k | 0 <= k < |ops| :: !Miscredits(s, ops, k) {
      forall k | 0 <= k <= |ops| ensures Conserved(s, ops[..k]) {
        NoMiscreditNoExcess(s, ops, k);
      }
    }
  }

  // Each retransmittable packet is resolved at most once, and a loss reports its size: what the connection does.
  predicate ResolvesOnce(l: Ledger, op: Op) {
    match op
    case Acked(_, pn) => pn in l.sizes ==> pn in l.unresolved
    case Neutered(pn) => pn in l.sizes ==> pn in l.unresolved
    case Lost(pn, bytes) => pn in l.unresolved && bytes == l.unresolved[pn]
    case _ => true
  }

  predicate AllResolvedOnce(s: Sampler, ops: seq<Op>) {
    ops == [] || (AllResolvedOnce(s, ops[..|ops| - 1]) && ResolvesOnce(LedgerOf(s, ops[..|ops| - 1]), ops[|ops| - 1]))
  }

  lemma ResolvedOnceIsCreditedOnce(l: Ledger, s: Sampler, op: Op)
    requires Balanced(l, s) && ResolvesOnce(l, op)
    ensures Miscredited(l, s, op) == 0
  {
    hide Credited, Sum;
  }

  // In particular when packets are resolved at most once; then no more is ever credited than was sent.
  lemma {:induction false} BytesAreConserved(s: Sampler, ops: seq<Op>)
    requires Unused(s) && Ordered(s, ops) && AllResolvedOnce(s, ops)
    ensures LedgerOf(s, ops).excess == 0 && Conserved(s, ops)
    ensures Credited(Run(s, ops)) <= Run(s, ops).totalBytesSent
  {
    if ops != [] {
      var before, op := ops[..|ops| - 1], ops[|ops| - 1];
      BytesAreConserved(s, before);
      BytesAreAccounted(s, before);
      ResolvedOnceIsCreditedOnce(LedgerOf(s, before), Run(s, before), op);
      hide Step, Sum, Unused, Balanced, Miscredited, ResolvesOnce;
    }
    BytesAreAccounted(s, ops);
  }
}
