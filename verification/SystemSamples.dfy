// The samples of the whole sender: in every run each sample is a pair of slopes, the A0 points are those of the full
// list, and the bandwidth estimate is the largest sample fed since it was recorded, at most ten rounds ago.
module SystemSamples {
  import opened Rates
  import opened SamplerStates
  import opened SenderStates
  import opened SystemLaws
  import opened SystemRuns
  import opened WindowedFilters
  import S = SamplerRuns
  import H = SamplerHistory
  import C = SenderRuns
  import R = SenderRounds

  // ---- The loop over the acknowledged packets ----

  // The sampler when the loop of the event reaches its k-th acknowledged packet.
  function LoopSampler(s: System, e: Event, k: nat): Sampler
    requires k <= |e.acked|
  {
    AfterAcks(AfterLosses(SamplerNotified(s, e), e.lost).0, e.time, e.acked[..k]).sampler
  }

  function LoopOps(s: System, e: Event, k: nat): seq<S.Op>
    requires k <= |e.acked|
  {
    NotifiedOps(s, e) + S.LossOps(e.lost) + S.AckOps(e.time, e.acked[..k])
  }

  // The sample made there.
  function LoopSample(s: System, e: Event, k: nat): Sample
    requires k < |e.acked|
  {
    AckSample(LoopSampler(s, e, k), e.time, e.acked[k].packetNumber)
  }

  lemma LoopIsRun(s: System, e: Event, k: nat)
    requires k <= |e.acked|
    ensures S.Run(s.sampler, LoopOps(s, e, k)) == LoopSampler(s, e, k) && S.NoSends(LoopOps(s, e, k))
  {
    var s0 := SamplerNotified(s, e);
    OneOp(s.sampler, S.AppLimited);
    NoOp(s.sampler);
    S.LossesRun(s0, e.lost);
    S.AcksRun(AfterLosses(s0, e.lost).0, e.time, e.acked[..k]);
    hide S.Run, Target;
    RunAppends(s.sampler, NotifiedOps(s, e), S.LossOps(e.lost), s0, AfterLosses(s0, e.lost).0);
    RunAppends(s.sampler, NotifiedOps(s, e) + S.LossOps(e.lost), S.AckOps(e.time, e.acked[..k]), AfterLosses(s0, e.lost).0,
               LoopSampler(s, e, k));
  }

  lemma {:induction false} AckOpsExtend(time: int, acked: seq<AckedPacket>, k: nat)
    requires k < |acked|
    ensures S.AckOps(time, acked[..k]) + [S.Acked(time, acked[k].packetNumber)] <= S.AckOps(time, acked)
  {
    var n := |acked| - 1;
    if k < n {
      AckOpsExtend(time, acked[..n], k);
      assert acked[..n][..k] == acked[..k];
    }
  }

  lemma LoopIsPrefix(s: System, e: Event, k: nat)
    requires k < |e.acked|
    ensures LoopOps(s, e, k) + [S.Acked(e.time, e.acked[k].packetNumber)] <= EventOps(s, e)
  {
    hide NotifiedOps, S.LossOps, S.AckOps, ExpiresHeights, ProbesRtt, RoundOf, FactsOf, S.EndOps, LeastUnacked, SamplerNotified;
    AckOpsExtend(e.time, e.acked, k);
    var end := S.EndOps(SamplerNotified(s, e), SamplerStates.Congestion(e.time, e.acked, e.lost, s.filter.best.sample, INF_BANDWIDTH,
                                                                        RoundOf(s.core, e)));
    var expired := if ExpiresHeights(s.core, FactsOf(s, e)) then [S.HeightReset(0, RoundOf(s.core, e))] else [];
    var probing := if ProbesRtt(s.core, FactsOf(s, e)) then [S.AppLimited] else [];
    assert EventOps(s, e) == NotifiedOps(s, e) + (S.LossOps(e.lost) + S.AckOps(e.time, e.acked) + end) + expired + probing
                             + [S.Pruned(LeastUnacked(e))];
    PrefixWithin(NotifiedOps(s, e), S.LossOps(e.lost), S.AckOps(e.time, e.acked[..k]), [S.Acked(e.time, e.acked[k].packetNumber)],
                 S.AckOps(e.time, e.acked), end, expired, probing, [S.Pruned(LeastUnacked(e))]);
  }

  lemma PrefixWithin<T>(a: seq<T>, b: seq<T>, c: seq<T>, next: seq<T>, all: seq<T>, end: seq<T>, x: seq<T>, y: seq<T>, z: seq<T>)
    requires c + next <= all
    ensures a + b + c + next <= a + (b + all + end) + x + y + z
  {
    assert a + b + c + next == a + b + (c + next);
    assert a + (b + all + end) == a + b + all + end;
  }

  // Everything the sampler has been told when the loop of step i reaches its k-th acknowledged packet.
  function OpsUpTo(states: seq<System>, steps: seq<Step>, i: nat, k: nat): seq<S.Op>
    requires i < |steps| < |states| && AllReport(steps, i) && steps[i].Congestion? && k <= |steps[i].e.acked|
  {
    SamplerOps(states, steps, i) + LoopOps(states[i], steps[i].e, k)
  }

  // Each sample of the loop is made in a state of an orderly run of the sampler.
  lemma LoopProjects(delay: nat, states: seq<System>, steps: seq<Step>, maxPackets: int, i: nat, k: nat)
    requires IsRun(delay, states, steps) && IsStart(states[0], maxPackets) && i < |steps|
    requires steps[i].Congestion? && k <= |steps[i].e.acked|
    ensures AllReport(steps, i + 1) && AllReport(steps, i)
    ensures S.Unused(states[0].sampler) && S.Ordered(states[0].sampler, OpsUpTo(states, steps, i, k))
    ensures S.Run(states[0].sampler, OpsUpTo(states, steps, i, k)) == LoopSampler(states[i], steps[i].e, k)
  {
    RunProjectsToSampler(delay, states, steps, maxPackets, i);
    RunReports(delay, states, steps, i + 1);
    hide IsRun, IsStart, S.Run, S.Ordered, S.Unused, LoopOps, LoopSampler, AllReport;
    var e := steps[i].e;
    LoopIsRun(states[i], e, k);
    S.NoSendsIsOrdered(states[i].sampler, LoopOps(states[i], e, k));
    S.RunSplits(states[0].sampler, SamplerOps(states, steps, i), LoopOps(states[i], e, k));
  }

  lemma RunReports(delay: nat, states: seq<System>, steps: seq<Step>, i: nat)
    requires IsRun(delay, states, steps) && i <= |steps|
    ensures AllReport(steps, i)
  {
    hide Next, CanPace, FactsOf, Modelled;
    forall n | 0 <= n < i && steps[n].Congestion? ensures steps[n].e.acked != [] || steps[n].e.lost != [] {
      assert Enabled(states[n], steps[n], Now(steps, n));
    }
  }

  lemma OpsArePrefix(states: seq<System>, steps: seq<Step>, i: nat, k: nat)
    requires i < |steps| < |states| && AllReport(steps, i + 1) && AllReport(steps, i) && steps[i].Congestion? && k < |steps[i].e.acked|
    ensures OpsUpTo(states, steps, i, k) + [S.Acked(steps[i].e.time, steps[i].e.acked[k].packetNumber)] <= SamplerOps(states, steps, i + 1)
  {
    LoopIsPrefix(states[i], steps[i].e, k);
    hide LoopOps, EventOps, AllReport;
    assert StepOps(states[i], steps[i]) == EventOps(states[i], steps[i].e);
  }

  // Every sample that every event of every run makes is the smaller of two slopes, of the curves up to its own
  // acknowledgement, which is part of what the sampler is told in the run.
  lemma EventSamplesAreSlopes(delay: nat, states: seq<System>, steps: seq<Step>, maxPackets: int, i: nat, k: nat)
    requires IsRun(delay, states, steps) && IsStart(states[0], maxPackets) && i < |steps|
    requires steps[i].Congestion? && k < |steps[i].e.acked|
    ensures AllReport(steps, i + 1) && AllReport(steps, i)
    ensures var told := OpsUpTo(states, steps, i, k) + [S.Acked(steps[i].e.time, steps[i].e.acked[k].packetNumber)];
            && told <= SamplerOps(states, steps, i + 1)
            && S.IsSmallerSlope(S.CurvesOf(states[0].sampler, told), LoopSampler(states[i], steps[i].e, k), steps[i].e.time,
                                steps[i].e.acked[k].packetNumber)
  {
    LoopProjects(delay, states, steps, maxPackets, i, k);
    hide IsRun, IsStart, S.Run, S.Ordered, S.Unused, OpsUpTo, LoopSampler, S.CurvesOf, S.IsSmallerSlope, AllReport, SamplerOps;
    OpsArePrefix(states, steps, i, k);
    S.SamplesAreSlopes(states[0].sampler, OpsUpTo(states, steps, i, k), steps[i].e.time, steps[i].e.acked[k].packetNumber);
  }

  // And every A0 point it asks for is that of a search of the full list, exactly under the condition of
  // SamplerHistory.PruningIsInvisible.
  lemma EventChoicesAreUnpruned(delay: nat, states: seq<System>, steps: seq<Step>, maxPackets: int, i: nat, k: nat)
    requires IsRun(delay, states, steps) && IsStart(states[0], maxPackets) && i < |steps|
    requires steps[i].Congestion? && k < |steps[i].e.acked| && states[0].sampler.overestimateAvoidance
    requires Asks(LoopSampler(states[i], steps[i].e, k), steps[i].e.acked[k].packetNumber)
    ensures AllReport(steps, i + 1) && AllReport(steps, i)
    ensures var r, packetNumber := LoopSampler(states[i], steps[i].e, k), steps[i].e.acked[k].packetNumber;
            var all, argument := H.SavedBy(states[0].sampler, OpsUpTo(states, steps, i, k)).all, H.ArgumentOf(r, packetNumber);
            && all != []
            && (A0(r, packetNumber) == H.LastWithin(all, argument)
                <==> |r.candidates| == |all| || r.candidates[0].bytes <= argument || r.candidates[0] == all[0])
  {
    LoopProjects(delay, states, steps, maxPackets, i, k);
    hide IsRun, IsStart, S.Run, S.Ordered, S.Unused, OpsUpTo, LoopSampler, A0, H.LastWithin, H.SavedBy, AllReport, Asks;
    H.PruningIsInvisible(states[0].sampler, OpsUpTo(states, steps, i, k), steps[i].e.acked[k].packetNumber);
  }

  // ---- The event's maximum ----

  lemma TalliedMaximum(t: Tally, time: int, packetNumber: int)
    ensures var sample := AckSample(t.sampler, time, packetNumber);
            && (sample.state.isValid || sample.bandwidth == 0)
            && Tallied(t, time, packetNumber).event.maxBandwidth
               == if sample.state.isValid then Max(t.event.maxBandwidth, sample.bandwidth) else t.event.maxBandwidth
  {
    hide A0, SendRate, BandwidthFromDelta, AfterAck;
  }

  // The sample of the k-th packet of a loop that starts in s.
  function SampleAt(s: Sampler, time: int, acked: seq<AckedPacket>, k: nat): Sample
    requires k < |acked|
  {
    AckSample(AfterAcks(s, time, acked[..k]).sampler, time, acked[k].packetNumber)
  }

  lemma {:induction false} TallyMaximum(s: Sampler, time: int, acked: seq<AckedPacket>) returns (k: int)
    ensures var max := AfterAcks(s, time, acked).event.maxBandwidth;
            && 0 <= max
            && (max == 0 || (0 <= k < |acked| && SampleAt(s, time, acked, k).state.isValid && SampleAt(s, time, acked, k).bandwidth == max))
            && forall j | 0 <= j < |acked| :: SampleAt(s, time, acked, j).bandwidth <= max
  {
    k := -1;
    if acked != [] {
      var n := |acked| - 1;
      k := TallyMaximum(s, time, acked[..n]);
      forall j | 0 <= j < n ensures SampleAt(s, time, acked[..n], j) == SampleAt(s, time, acked, j) {
        assert acked[..n][..j] == acked[..j];
      }
      TalliedMaximum(AfterAcks(s, time, acked[..n]), time, acked[n].packetNumber);
      hide Tallied, AckSample;
      if SampleAt(s, time, acked, n).state.isValid
         && SampleAt(s, time, acked, n).bandwidth > AfterAcks(s, time, acked[..n]).event.maxBandwidth {
        k := n;
      }
    }
  }

  // What an event feeds the filter is the largest of its samples.
  lemma EventMaximum(s: System, e: Event) returns (k: int)
    ensures var max := SamplerFed(s, e).1.maxBandwidth;
            && (max == 0 || (0 <= k < |e.acked| && LoopSample(s, e, k).state.isValid && LoopSample(s, e, k).bandwidth == max))
            && forall j | 0 <= j < |e.acked| :: LoopSample(s, e, j).bandwidth <= max
  {
    var s1 := AfterLosses(SamplerNotified(s, e), e.lost).0;
    k := TallyMaximum(s1, e.time, e.acked);
    assert forall j | 0 <= j < |e.acked| :: LoopSample(s, e, j) == SampleAt(s1, e.time, e.acked, j);
    hide AckSample, SampleAt, LoopSample, AfterAcks, AfterLosses, SamplerNotified, AfterEventEnd, EndBandwidth, LastState, RoundOf;
  }

  // ---- The filter's part ----

  // The event updates the bandwidth filter.
  predicate Feeds(s: System, step: Step) {
    && step.Congestion?
    && var (sampler, sample) := SamplerFed(s, step.e);
       sampler.totalBytesAcked != s.sampler.totalBytesAcked
       && (!sample.isAppLimited || sample.maxBandwidth > s.filter.best.sample)
  }

  // With what: its largest sample and its round.
  function Feed(s: System, step: Step): Entry<int>
    requires step.Congestion?
  {
    Entry(SamplerFed(s, step.e).1.maxBandwidth, RoundOf(s.core, step.e))
  }

  // The steps before i that update the filter.
  function Feedings(states: seq<System>, steps: seq<Step>, i: nat): (ns: seq<nat>)
    requires i <= |steps| < |states|
    ensures forall j | 0 <= j < |ns| :: ns[j] < i && Feeds(states[ns[j]], steps[ns[j]])
  {
    if i == 0 then []
    else if Feeds(states[i - 1], steps[i - 1]) then Feedings(states, steps, i - 1) + [i - 1]
    else Feedings(states, steps, i - 1)
  }

  lemma {:induction false} FeedingIsIn(states: seq<System>, steps: seq<Step>, i: nat, n: nat)
    requires n < i <= |steps| < |states| && Feeds(states[n], steps[n])
    ensures n in Feedings(states, steps, i)
  {
    hide Feeds;
    var before := Feedings(states, steps, i - 1);
    if n < i - 1 {
      FeedingIsIn(states, steps, i - 1, n);
      LastIsIn(before, i - 1);
    } else {
      LastIsIn(before, n);
    }
  }

  lemma LastIsIn(ns: seq<nat>, n: nat)
    ensures n in ns + [n] && forall m | m in ns :: m in ns + [n]
  {
  }

  lemma {:induction false} FeedingsRise(states: seq<System>, steps: seq<Step>, i: nat)
    requires i <= |steps| < |states|
    ensures forall j, k | 0 <= j < k < |Feedings(states, steps, i)| :: Feedings(states, steps, i)[j] < Feedings(states, steps, i)[k]
  {
    if i != 0 {
      hide Feeds;
      FeedingsRise(states, steps, i - 1);
    }
  }

  lemma FeedingsAreAll(states: seq<System>, steps: seq<Step>, i: nat)
    requires i <= |steps| < |states|
    ensures forall n | 0 <= n < i && Feeds(states[n], steps[n]) :: n in Feedings(states, steps, i)
    ensures forall j, k | 0 <= j < k < |Feedings(states, steps, i)| :: Feedings(states, steps, i)[j] < Feedings(states, steps, i)[k]
  {
    hide Feeds, Feedings;
    forall n | 0 <= n < i && Feeds(states[n], steps[n]) ensures n in Feedings(states, steps, i) {
      FeedingIsIn(states, steps, i, n);
    }
    FeedingsRise(states, steps, i);
  }

  function FilterOps(states: seq<System>, steps: seq<Step>, i: nat): seq<Op<int>>
    requires i <= |steps| < |states|
  {
    if i == 0 then []
    else if Feeds(states[i - 1], steps[i - 1])
    then FilterOps(states, steps, i - 1) + [Update(Feed(states[i - 1], steps[i - 1]))]
    else FilterOps(states, steps, i - 1)
  }

  lemma StepFeeds(delay: nat, s: System, step: Step, now: int)
    requires Enabled(s, step, now)
    ensures Next(delay, s, step, now).filter == if Feeds(s, step) then Updated(MaxFilter, 0, s.filter, Feed(s, step)) else s.filter
  {
    hide SamplerFed, CanHandle, AfterFacts, SamplerSettled, Updated;
  }

  lemma {:induction false} FedIsFeeds(states: seq<System>, steps: seq<Step>, i: nat)
    requires i <= |steps| < |states|
    ensures |Fed(FilterOps(states, steps, i))| == |Feedings(states, steps, i)|
    ensures forall j | 0 <= j < |Feedings(states, steps, i)| ::
              Fed(FilterOps(states, steps, i))[j] == Feed(states[Feedings(states, steps, i)[j]], steps[Feedings(states, steps, i)[j]])
  {
    if i != 0 {
      hide Feeds, Feed;
      FedIsFeeds(states, steps, i - 1);
      if Feeds(states[i - 1], steps[i - 1]) {
        FeedsOnlyEvents(states[i - 1], steps[i - 1]);
        FedExtends(FilterOps(states, steps, i - 1), Update(Feed(states[i - 1], steps[i - 1])));
      }
    }
  }

  lemma FeedsOnlyEvents(s: System, step: Step)
    requires Feeds(s, step)
    ensures step.Congestion? && Feed(s, step).time == RoundOf(s.core, step.e)
  {
    hide SamplerFed, RoundOf;
  }

  // The bandwidth filter inside a run of the sender has been through a run of its own.
  lemma {:induction false} RunProjectsToFilter(delay: nat, states: seq<System>, steps: seq<Step>, maxPackets: int, i: nat)
    requires IsRun(delay, states, steps) && IsStart(states[0], maxPackets) && i <= |steps|
    ensures |states| == |steps| + 1
    ensures states[i].filter == Run(MaxFilter, 0, BANDWIDTH_WINDOW, FilterOps(states, steps, i))
  {
    hide Next, Enabled, Feeds, IsStart, Run, Feed, Updated;
    if i == 0 {
      StartsFresh(states[0], maxPackets);
      StartsWithRun();
    } else {
      RunProjectsToFilter(delay, states, steps, maxPackets, i - 1);
      var s, step, now := states[i - 1], steps[i - 1], Now(steps, i - 1);
      assert Enabled(s, step, now) && states[i] == Next(delay, s, step, now);
      hide IsRun;
      StepFeeds(delay, s, step, now);
      if Feeds(s, step) {
        FeedsOnlyEvents(s, step);
        RunExtends(MaxFilter, 0, BANDWIDTH_WINDOW, FilterOps(states, steps, i - 1), Update(Feed(s, step)));
      }
    }
  }

  lemma StartsWithRun()
    ensures Run(MaxFilter, 0, BANDWIDTH_WINDOW, []) == Fresh(BANDWIDTH_WINDOW, 0)
  {
  }

  lemma StartsFresh(s: System, maxPackets: int)
    requires IsStart(s, maxPackets)
    ensures s.filter == Fresh(BANDWIDTH_WINDOW, 0)
  {
    hide NewCore, NewSampler, WithOverestimateAvoidance;
  }

  // ---- What the estimate means ----

  lemma RoundsRise(delay: nat, states: seq<System>, steps: seq<Step>, maxPackets: int, n: nat, m: nat)
    requires IsRun(delay, states, steps) && IsStart(states[0], maxPackets) && n <= m < |steps|
    requires steps[n].Congestion? && steps[m].Congestion?
    ensures RoundOf(states[n].core, steps[n].e) <= RoundOf(states[m].core, steps[m].e)
  {
    if n < m {
      var cores, coreSteps := RunProjectsToCore(delay, states, steps, maxPackets, m);
      hide IsRun, IsStart, Sound, SentBy, C.Next, C.Enabled, C.IsStart, CoreStep, Next, Enabled;
      R.MarksAlwaysFit(cores, coreSteps, maxPackets, n);
      R.StepMarks(cores[n], coreSteps[n]);
      R.MarksGrow(cores, coreSteps, maxPackets, n + 1, m);
      EventCounts(states[n], steps[n]);
    }
  }

  lemma EventCounts(s: System, step: Step)
    requires step.Congestion?
    ensures R.RoundStarts(s.core, CoreStep(s, step)) <==> RoundOf(s.core, step.e) == s.core.rounds.count + 1
    ensures !R.RoundStarts(s.core, CoreStep(s, step)) <==> RoundOf(s.core, step.e) == s.core.rounds.count
  {
    hide SamplerFed, FilterFed, SamplerSettled;
  }

  // The estimates of the filter in terms of the steps: the best was fed by step n, and no later feed exceeds it.
  ghost predicate IsMaximumSince(states: seq<System>, steps: seq<Step>, i: nat, n: int)
    requires i <= |steps| < |states|
  {
    && 0 <= n < i && Feeds(states[n], steps[n]) && states[i].filter.best == Feed(states[n], steps[n])
    && forall m | n <= m < i && Feeds(states[m], steps[m]) :: Feed(states[m], steps[m]).sample <= states[i].filter.best.sample
  }

  lemma RecordIsMaximum(states: seq<System>, steps: seq<Step>, i: nat, a: int)
    requires i <= |steps| < |states|
    requires RecordedAt(MaxFilter, Fed(FilterOps(states, steps, i)), a, states[i].filter.best)
    ensures 0 <= a < |Feedings(states, steps, i)| && IsMaximumSince(states, steps, i, Feedings(states, steps, i)[a])
    ensures states[i].filter.best == Feed(states[Feedings(states, steps, i)[a]], steps[Feedings(states, steps, i)[a]])
  {
    hide Feeds, Feed;
    FedIsFeeds(states, steps, i);
    FeedingsAreAll(states, steps, i);
    var fed, ns := Fed(FilterOps(states, steps, i)), Feedings(states, steps, i);
    forall m | ns[a] <= m < i && Feeds(states[m], steps[m])
      ensures steps[m].Congestion? && Feed(states[m], steps[m]).sample <= states[i].filter.best.sample
    {
      FeedsOnlyEvents(states[m], steps[m]);
      var b :| 0 <= b < |ns| && ns[b] == m;
      assert MaxFilter(states[i].filter.best.sample, fed[b].sample) >= 0;
    }
  }

  // The bandwidth estimate of a run is zero until an event feeds the filter. Then it is what some event n fed, the
  // largest fed from n on, and right after an event that feeds it no more than ten rounds old.
  lemma EstimateIsRecentMaximum(delay: nat, states: seq<System>, steps: seq<Step>, maxPackets: int, i: nat) returns (n: int)
    requires IsRun(delay, states, steps) && IsStart(states[0], maxPackets) && i <= |steps|
    ensures if forall m | 0 <= m < i :: !Feeds(states[m], steps[m]) then states[i].filter.best.sample == 0
            else IsMaximumSince(states, steps, i, n)
    ensures 0 < i && Feeds(states[i - 1], steps[i - 1]) ==>
              0 <= n < i && steps[n].Congestion?
              && RoundOf(states[i - 1].core, steps[i - 1].e) <= RoundOf(states[n].core, steps[n].e) + BANDWIDTH_WINDOW
  {
    hide Feeds, Feed, IsRun, IsStart, Run, RecordedAt, IsMaximumSince, RoundOf;
    RunProjectsToFilter(delay, states, steps, maxPackets, i);
    var ops, ns := FilterOps(states, steps, i), Feedings(states, steps, i);
    StandardComparatorsRank();
    var a, _, _ := EstimatesAreSuffixMaxima(MaxFilter, 0, BANDWIDTH_WINDOW, ops);
    FedIsFeeds(states, steps, i);
    FeedingsAreAll(states, steps, i);
    n := -1;
    if ns != [] {
      RecordIsMaximum(states, steps, i, a);
      n := ns[a];
      if Feeds(states[i - 1], steps[i - 1]) {
        FeedsOnlyEvents(states[i - 1], steps[i - 1]);
        FeedsOnlyEvents(states[n], steps[n]);
        assert ops[|ops| - 1] == Update(Feed(states[i - 1], steps[i - 1]));
        RoundsRise(delay, states, steps, maxPackets, n, i - 1);
      }
    }
  }

  // So a non-zero estimate is a genuine sample: the k-th of event n, the smaller of two slopes.
  lemma EstimateIsSlope(delay: nat, states: seq<System>, steps: seq<Step>, maxPackets: int, i: nat) returns (n: nat, k: nat)
    requires IsRun(delay, states, steps) && IsStart(states[0], maxPackets) && i <= |steps|
    requires states[i].filter.best.sample != 0
    ensures IsMaximumSince(states, steps, i, n) && n < i && steps[n].Congestion? && k < |steps[n].e.acked|
    ensures AllReport(steps, n)
    ensures var told := OpsUpTo(states, steps, n, k) + [S.Acked(steps[n].e.time, steps[n].e.acked[k].packetNumber)];
            var sample := LoopSample(states[n], steps[n].e, k);
            sample.bandwidth == states[i].filter.best.sample && sample.state.isValid
            && S.IsSmallerSlope(S.CurvesOf(states[0].sampler, told), LoopSampler(states[n], steps[n].e, k), steps[n].e.time,
                                steps[n].e.acked[k].packetNumber)
  {
    assert |states| == |steps| + 1;
    hide Feeds, IsRun, IsStart, S.CurvesOf, S.IsSmallerSlope, AllReport, OpsUpTo, LoopSample, RoundOf, SamplerFed;
    n := EstimateIsRecentMaximum(delay, states, steps, maxPackets, i);
    FeedsOnlyEvents(states[n], steps[n]);
    k := EventMaximum(states[n], steps[n].e);
    EventSamplesAreSlopes(delay, states, steps, maxPackets, n, k);
  }

  // The estimates of a run rank best, second, third and were taken in rounds in that order.
  lemma EstimatesStayOrdered(delay: nat, states: seq<System>, steps: seq<Step>, maxPackets: int, i: nat)
    requires IsRun(delay, states, steps) && IsStart(states[0], maxPackets) && i <= |steps|
    ensures var f := states[i].filter;
            f.third.sample <= f.second.sample <= f.best.sample && f.best.time <= f.second.time <= f.third.time
  {
    hide Feeds, Feed, IsRun, IsStart, Run, RoundOf;
    RunProjectsToFilter(delay, states, steps, maxPackets, i);
    FedIsFeeds(states, steps, i);
    FeedingsAreAll(states, steps, i);
    StandardComparatorsRank();
    var fed, ns := Fed(FilterOps(states, steps, i)), Feedings(states, steps, i);
    forall a, b | 0 <= a <= b < |fed| ensures fed[a].time <= fed[b].time {
      FeedsOnlyEvents(states[ns[a]], steps[ns[a]]);
      FeedsOnlyEvents(states[ns[b]], steps[ns[b]]);
      RoundsRise(delay, states, steps, maxPackets, ns[a], ns[b]);
    }
    EstimatesAreOrdered(MaxFilter, 0, BANDWIDTH_WINDOW, FilterOps(states, steps, i));
  }

  // Every estimate was taken in the round of an event that fed the filter.
  lemma EstimatesAreNoLaterThan(delay: nat, states: seq<System>, steps: seq<Step>, maxPackets: int, i: nat)
    requires IsRun(delay, states, steps) && IsStart(states[0], maxPackets) && i < |steps| && steps[i].Congestion?
    ensures 0 <= RoundOf(states[i].core, steps[i].e)
    ensures states[i].filter.third.time <= RoundOf(states[i].core, steps[i].e)
  {
    RunProjectsToFilter(delay, states, steps, maxPackets, i);
    FedIsFeeds(states, steps, i);
    FeedingsAreAll(states, steps, i);
    StandardComparatorsRank();
    var _, _, k := EstimatesAreSuffixMaxima(MaxFilter, 0, BANDWIDTH_WINDOW, FilterOps(states, steps, i));
    RoundIsNatural(delay, states, steps, maxPackets, i);
    hide Feeds, Feed, IsRun, IsStart, Run, RoundOf, FilterOps;
    var ns := Feedings(states, steps, i);
    if ns != [] {
      FeedsOnlyEvents(states[ns[k]], steps[ns[k]]);
      RoundsRise(delay, states, steps, maxPackets, ns[k], i);
    }
  }

  // How the bandwidth estimate of a run changes: only by an event that feeds the filter; then to what that feeds, if that is
  // no lower or there was no estimate; and down only when the estimate is more than ten rounds old, to one that is not.
  lemma EstimateChangesExactly(delay: nat, states: seq<System>, steps: seq<Step>, maxPackets: int, i: nat)
    requires IsRun(delay, states, steps) && IsStart(states[0], maxPackets) && i < |steps|
    ensures |states| == |steps| + 1
    ensures var f, r := states[i].filter, states[i + 1].filter;
            if !Feeds(states[i], steps[i]) then r == f
            else
              var e := Entry(SamplerFed(states[i], steps[i].e).1.maxBandwidth, RoundOf(states[i].core, steps[i].e));
              if f.best.sample == 0 || f.best.sample <= e.sample then r.best == e
              else if e.time <= f.best.time + 10 then r.best == f.best
              else r.best in {f.second, f.third, e} && e.sample <= r.best.sample && e.time <= r.best.time + 10
  {
    assert |states| == |steps| + 1;
    assert Enabled(states[i], steps[i], Now(steps, i)) && states[i + 1] == Next(delay, states[i], steps[i], Now(steps, i));
    StepFeeds(delay, states[i], steps[i], Now(steps, i));
    hide IsRun, IsStart, Next, Enabled, SamplerFed, RoundOf, Updated, Feeds;
    if Feeds(states[i], steps[i]) {
      FeedsOnlyEvents(states[i], steps[i]);
      EstimatesStayOrdered(delay, states, steps, maxPackets, i);
      EstimatesAreNoLaterThan(delay, states, steps, maxPackets, i);
      RunProjectsToFilter(delay, states, steps, maxPackets, i);
      WindowIsKept(MaxFilter, 0, BANDWIDTH_WINDOW, FilterOps(states, steps, i));
      StandardComparatorsRank();
      UpdateReplacesExactly(MaxFilter, 0, states[i].filter, Feed(states[i], steps[i]));
    }
  }
}
