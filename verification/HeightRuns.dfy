// The ack-aggregation tracker over whole runs of the sampler: what its filter has been fed, what its best height
// means, and that no recorded event carries a round.
module HeightRuns {
  import opened AckHeights
  import opened SamplerStates
  import opened WindowedFilters
  import S = SamplerRuns

  // What a step of the sampler does to the tracker's filter.
  function StepHeightOps(s: Sampler, op: S.Op): seq<Op<ExtraAcked>> {
    match op
    case EventEnd(bandwidth, isNewMax, round) =>
      if s.totalBytesAcked == s.ackedAfterLastEvent then [] else HeightOps(s.heights, AckEventOf(s, bandwidth, isNewMax, round))
    case HeightReset(height, round) => [Reset(Entry(ExtraAcked(height, 0, 0, round), round))]
    case _ => []
  }

  function HeightOpsOf(s: Sampler, ops: seq<S.Op>): seq<Op<ExtraAcked>> {
    if ops == [] then []
    else HeightOpsOf(s, ops[..|ops| - 1]) + StepHeightOps(S.Run(s, ops[..|ops| - 1]), ops[|ops| - 1])
  }

  // What a step does to the tracker.
  lemma StepHeights(s: Sampler, op: S.Op)
    ensures var r := S.Step(s, op);
            r.heights == match op
                         case EventEnd(bandwidth, isNewMax, round) =>
                           if s.totalBytesAcked == s.ackedAfterLastEvent then s.heights
                           else Observed(s.heights, AckEventOf(s, bandwidth, isNewMax, round)).0
                         case HeightReset(height, round) =>
                           s.heights.(filter := ResetTo(s.heights.filter, Entry(ExtraAcked(height, 0, 0, round), round)))
                         case _ => s.heights
  {
    hide Observed, DroppedByChoice;
  }

  // The tracker's filter inside a run of the sampler has been through a run of its own.
  lemma {:induction false} HeightsAreFiltered(s: Sampler, ops: seq<S.Op>, window: nat)
    requires s.heights.filter == Fresh(window, NO_EXTRA)
    ensures S.Run(s, ops).heights.filter == Filtered(window, HeightOpsOf(s, ops))
  {
    if ops != [] {
      hide S.Step, Observed, HeightOps, AckEventOf, Filtered;
      var before, op := ops[..|ops| - 1], ops[|ops| - 1];
      HeightsAreFiltered(s, before, window);
      var r, fed := S.Run(s, before), HeightOpsOf(s, before);
      StepHeights(r, op);
      if op.EventEnd? && r.totalBytesAcked != r.ackedAfterLastEvent {
        ObservingIsRun(window, fed, r.heights, AckEventOf(r, op.bandwidth, op.isNewMax, op.round));
      } else if op.HeightReset? {
        ResettingIsRun(window, fed, StepHeightOps(r, op)[0]);
      } else {
        assert fed + StepHeightOps(r, op) == fed;
      }
    }
  }

  lemma ResettingIsRun(window: nat, ops: seq<Op<ExtraAcked>>, op: Op<ExtraAcked>)
    requires op.Reset?
    ensures Filtered(window, ops + [op]) == ResetTo(Filtered(window, ops), op.e)
  {
    RunExtends(MaxExtraAcked, NO_EXTRA, window, ops, op);
  }

  // In every run the three heights are heights that were measured, or measured again, since the bandwidth last
  // reached a new maximum, each the largest of all measured since its own recording; right after a measurement
  // the best is at most a window of rounds old.
  lemma HeightsAreSuffixMaxima(s: Sampler, ops: seq<S.Op>, window: nat) returns (i: int, j: int, k: int)
    requires s.heights.filter == Fresh(window, NO_EXTRA)
    ensures var fed, f := Fed(HeightOpsOf(s, ops)), S.Run(s, ops).heights.filter;
            if fed == [] then f == Fresh(window, NO_EXTRA) else Recorded(MaxExtraAcked, fed, f, i, j, k)
    ensures var heightOps := HeightOpsOf(s, ops);
            heightOps != [] && heightOps[|heightOps| - 1].Update? ==>
              Age(heightOps[|heightOps| - 1].e.time, S.Run(s, ops).heights.filter.best.time) <= window
  {
    HeightsAreFiltered(s, ops, window);
    MaxExtraAckedRanks();
    i, j, k := EstimatesAreSuffixMaxima(MaxExtraAcked, NO_EXTRA, window, HeightOpsOf(s, ops));
  }

  // No recorded event carries a round, in any run.
  lemma {:induction false} HeightsAreUnstamped(s: Sampler, ops: seq<S.Op>, window: nat)
    requires s.heights.filter == Fresh(window, NO_EXTRA)
    ensures AllUnstamped(S.Run(s, ops).heights.filter) && S.Run(s, ops).heights.filter.window == window
  {
    if ops != [] {
      hide S.Step, Observed, AckEventOf;
      var before, op := ops[..|ops| - 1], ops[|ops| - 1];
      HeightsAreUnstamped(s, before, window);
      StepHeights(S.Run(s, before), op);
      if op.EventEnd? {
        HeightsStayUnstamped(S.Run(s, before).heights, AckEventOf(S.Run(s, before), op.bandwidth, op.isNewMax, op.round));
      }
      HeightsAreFiltered(s, ops, window);
      WindowIsKept(MaxExtraAcked, NO_EXTRA, window, HeightOpsOf(s, ops));
    }
  }
}
