// What an event of the whole sender reports besides its bandwidth: the round trip, the send state and the app-limited
// flag, in terms of the packets it acknowledges; and the minimum RTT in those terms.
module SystemReports {
  import opened Rates
  import opened SamplerStates
  import opened SenderStates
  import opened SystemLaws
  import opened SystemRuns
  import opened SystemSamples
  import S = SamplerRuns
  import C = SenderRuns
  import R = SenderRounds
  import M = SenderMarks
  import V = SenderRates

  // ---- The loop, packet by packet ----

  // The k-th acknowledged packet of the event yields a sample.
  predicate Yields(s: System, e: Event, k: nat)
    requires k < |e.acked|
  {
    S.Measures(LoopSampler(s, e, k), e.time, e.acked[k].packetNumber)
  }

  lemma {:induction false} LoopKeepsPackets(s: Sampler, time: int, acked: seq<AckedPacket>)
    ensures AfterAcks(s, time, acked).sampler.packets == s.packets
  {
    if acked != [] {
      LoopKeepsPackets(s, time, acked[..|acked| - 1]);
      AckKeepsPackets(AfterAcks(s, time, acked[..|acked| - 1]).sampler, time, acked[|acked| - 1].packetNumber);
      hide AfterAck, AckSample;
    }
  }

  lemma AckKeepsPackets(s: Sampler, time: int, packetNumber: int)
    ensures AfterAck(s, time, packetNumber).packets == s.packets
  {
    hide DroppedByChoice;
  }

  lemma LoopPackets(s: System, e: Event, k: nat)
    requires k <= |e.acked|
    ensures LoopSampler(s, e, k).packets == s.sampler.packets
  {
    LossesKeepPackets(SamplerNotified(s, e), e.lost);
    LoopKeepsPackets(AfterLosses(SamplerNotified(s, e), e.lost).0, e.time, e.acked[..k]);
    hide AfterLosses, AfterAcks, Target;
  }

  // The snapshot of the k-th packet.
  function AckedSnapshot(s: System, e: Event, k: nat): Snapshot
    requires k < |e.acked| && Yields(s, e, k)
  {
    LoopPackets(s, e, k);
    s.sampler.packets.live[e.acked[k].packetNumber]
  }

  // ---- Round trips ----

  // The times since the first k acknowledged packets were sent, for those that yield a sample, zeros left out.
  function RoundTrips(s: System, e: Event, k: nat): seq<int>
    requires k <= |e.acked|
  {
    if k == 0 then []
    else if Yields(s, e, k - 1) && e.time - AckedSnapshot(s, e, k - 1).sentTime != 0
    then RoundTrips(s, e, k - 1) + [e.time - AckedSnapshot(s, e, k - 1).sentTime]
    else RoundTrips(s, e, k - 1)
  }

  ghost predicate IsLeast(least: int, bound: int, all: seq<int>) {
    (least == bound || least in all) && least <= bound && forall x | x in all :: least <= x
  }

  lemma LeastExtends(least: int, bound: int, all: seq<int>, x: int)
    requires IsLeast(least, bound, all)
    ensures IsLeast(Min(least, x), bound, all + [x])
  {
  }

  // The event so far, when the loop reaches its k-th packet.
  function EventSoFar(s: System, e: Event, k: nat): EventSample
    requires k <= |e.acked|
  {
    AfterAcks(AfterLosses(SamplerNotified(s, e), e.lost).0, e.time, e.acked[..k]).event
  }

  lemma EventGoesOn(s: System, e: Event, k: nat)
    requires k < |e.acked|
    ensures var before, after, sample := EventSoFar(s, e, k), EventSoFar(s, e, k + 1), LoopSample(s, e, k);
            if !sample.state.isValid then after == before
            else
              var better := sample.bandwidth > before.maxBandwidth;
              && after.rtt == (if sample.rtt != 0 then Min(before.rtt, sample.rtt) else before.rtt)
              && after.maxBandwidth == (if better then sample.bandwidth else before.maxBandwidth)
              && after.isAppLimited == (if better then sample.state.isAppLimited else before.isAppLimited)
              && after.maxInflight == Max(before.maxInflight, LoopSampler(s, e, k + 1).totalBytesAcked - sample.state.totalBytesAcked)
  {
    assert e.acked[..k + 1][..k] == e.acked[..k] && e.acked[..k + 1][k] == e.acked[k];
    hide AckSample, AfterAck, AfterLosses, SamplerNotified;
  }

  lemma {:induction false} SoFarIsLeast(s: System, e: Event, k: nat)
    requires k <= |e.acked|
    ensures IsLeast(EventSoFar(s, e, k).rtt, INF_RTT, RoundTrips(s, e, k))
  {
    hide LoopSample, LoopSampler, AckSample, A0;
    if k == 0 {
      NothingSoFar(s, e);
    } else {
      hide EventSoFar;
      SoFarIsLeast(s, e, k - 1);
      EventGoesOn(s, e, k - 1);
      SampleIs(s, e, k - 1);
      if Yields(s, e, k - 1) {
        LeastExtends(EventSoFar(s, e, k - 1).rtt, INF_RTT, RoundTrips(s, e, k - 1), e.time - AckedSnapshot(s, e, k - 1).sentTime);
      }
      hide IsLeast, Yields, AckedSnapshot;
    }
  }

  lemma NothingSoFar(s: System, e: Event)
    ensures EventSoFar(s, e, 0) == NO_EVENT_SAMPLE
  {
    assert e.acked[..0] == [];
    hide AfterLosses, SamplerNotified;
  }

  // A sample in terms of its packet.
  lemma SampleIs(s: System, e: Event, k: nat)
    requires k < |e.acked|
    ensures LoopSample(s, e, k).state.isValid <==> Yields(s, e, k)
    ensures Yields(s, e, k) ==>
              && LoopSample(s, e, k).rtt == e.time - AckedSnapshot(s, e, k).sentTime
              && LoopSample(s, e, k).state == AckedSnapshot(s, e, k).state.(isValid := true)
  {
    LoopPackets(s, e, k);
    S.SampleParts(LoopSampler(s, e, k), e.time, e.acked[k].packetNumber);
    hide AckSample, A0, LoopSampler;
  }

  lemma EventIsSoFar(s: System, e: Event)
    ensures var r := SamplerFed(s, e).1;
            if e.acked == [] then r.rtt == INF_RTT && r.maxBandwidth == 0 && !r.isAppLimited && r.maxInflight == 0
            else
              var all := EventSoFar(s, e, |e.acked|);
              && r.rtt == all.rtt && r.maxBandwidth == all.maxBandwidth && r.isAppLimited == all.isAppLimited
              && r.maxInflight == all.maxInflight
  {
    assert e.acked[..|e.acked|] == e.acked;
    hide AfterLosses, AfterAcks, AfterEventEnd, SamplerNotified, LastState, EndBandwidth, RoundOf;
  }

  // The RTT an event reports is the least of the round trips of its packets that yield a sample, and infinite without any.
  lemma EventRttIsLeast(s: System, e: Event)
    ensures IsLeast(SamplerFed(s, e).1.rtt, INF_RTT, RoundTrips(s, e, |e.acked|))
  {
    EventIsSoFar(s, e);
    hide SamplerFed, IsLeast, EventSoFar;
    SoFarIsLeast(s, e, |e.acked|);
    if e.acked == [] { NothingSoFar(s, e); }
  }

  // ---- The app-limited flag ----

  lemma {:induction false} FlagOfMaximum(s: System, e: Event, k: nat) returns (j: int)
    requires k <= |e.acked|
    ensures -1 <= j < k
    ensures if j < 0 then EventSoFar(s, e, k).maxBandwidth == 0 && !EventSoFar(s, e, k).isAppLimited
            else
              && Yields(s, e, j) && LoopSample(s, e, j).bandwidth == EventSoFar(s, e, k).maxBandwidth > 0
              && EventSoFar(s, e, k).isAppLimited == AckedSnapshot(s, e, j).state.isAppLimited
    ensures forall i | 0 <= i < k && i != j :: LoopSample(s, e, i).bandwidth <= EventSoFar(s, e, k).maxBandwidth
    ensures forall i | 0 <= i < j :: LoopSample(s, e, i).bandwidth < EventSoFar(s, e, k).maxBandwidth
    ensures 0 <= EventSoFar(s, e, k).maxBandwidth
  {
    hide LoopSample, LoopSampler, AckSample, A0, EventSoFar, AckedSnapshot, Yields;
    j := -1;
    if k == 0 {
      NothingSoFar(s, e);
    } else {
      j := FlagOfMaximum(s, e, k - 1);
      EventGoesOn(s, e, k - 1);
      SampleIs(s, e, k - 1);
      InvalidIsZero(s, e, k - 1);
      if LoopSample(s, e, k - 1).state.isValid && LoopSample(s, e, k - 1).bandwidth > EventSoFar(s, e, k - 1).maxBandwidth {
        j := k - 1;
      }
    }
  }

  lemma InvalidIsZero(s: System, e: Event, k: nat)
    requires k < |e.acked|
    ensures !LoopSample(s, e, k).state.isValid ==> LoopSample(s, e, k).bandwidth == 0
  {
    S.SampleParts(LoopSampler(s, e, k), e.time, e.acked[k].packetNumber);
    hide AckSample, A0, LoopSampler;
  }

  // The event is app-limited exactly when its largest sample, the first of them if several are equal, comes from a packet
  // that was sent app-limited.
  lemma EventIsLimitedByMaximum(s: System, e: Event) returns (j: int)
    ensures -1 <= j < |e.acked|
    ensures if j < 0 then SamplerFed(s, e).1.maxBandwidth == 0 && !SamplerFed(s, e).1.isAppLimited
            else
              && Yields(s, e, j) && LoopSample(s, e, j).bandwidth == SamplerFed(s, e).1.maxBandwidth > 0
              && SamplerFed(s, e).1.isAppLimited == AckedSnapshot(s, e, j).state.isAppLimited
    ensures forall i | 0 <= i < |e.acked| && i != j :: LoopSample(s, e, i).bandwidth <= SamplerFed(s, e).1.maxBandwidth
    ensures forall i | 0 <= i < j :: LoopSample(s, e, i).bandwidth < SamplerFed(s, e).1.maxBandwidth
  {
    EventIsSoFar(s, e);
    hide SamplerFed, EventSoFar, LoopSample, AckedSnapshot, Yields;
    j := FlagOfMaximum(s, e, |e.acked|);
    if e.acked == [] { NothingSoFar(s, e); }
  }

  // ---- Bytes in flight ----

  // What was acknowledged since each of the first k acknowledged packets was sent, itself included, for those that yield a
  // sample.
  function Inflights(s: System, e: Event, k: nat): seq<int>
    requires k <= |e.acked|
  {
    if k == 0 then []
    else if Yields(s, e, k - 1)
    then Inflights(s, e, k - 1) + [LoopSampler(s, e, k).totalBytesAcked - AckedSnapshot(s, e, k - 1).state.totalBytesAcked]
    else Inflights(s, e, k - 1)
  }

  ghost predicate IsGreatest(greatest: int, all: seq<int>) {
    (greatest == 0 || greatest in all) && 0 <= greatest && forall x | x in all :: x <= greatest
  }

  lemma GreatestExtends(greatest: int, all: seq<int>, x: int)
    requires IsGreatest(greatest, all)
    ensures IsGreatest(Max(greatest, x), all + [x])
  {
  }

  lemma {:induction false} SoFarIsGreatest(s: System, e: Event, k: nat)
    requires k <= |e.acked|
    ensures IsGreatest(EventSoFar(s, e, k).maxInflight, Inflights(s, e, k))
  {
    hide LoopSample, LoopSampler, AckSample, A0;
    if k == 0 {
      NothingSoFar(s, e);
    } else {
      hide EventSoFar;
      SoFarIsGreatest(s, e, k - 1);
      EventGoesOn(s, e, k - 1);
      SampleIs(s, e, k - 1);
      if Yields(s, e, k - 1) {
        GreatestExtends(EventSoFar(s, e, k - 1).maxInflight, Inflights(s, e, k - 1),
                        LoopSampler(s, e, k).totalBytesAcked - AckedSnapshot(s, e, k - 1).state.totalBytesAcked);
      }
      hide IsGreatest, Yields, AckedSnapshot;
    }
  }

  // The bytes in flight an event reports are the most that was acknowledged in the flight of one of its packets.
  lemma EventInflightIsGreatest(s: System, e: Event)
    ensures IsGreatest(SamplerFed(s, e).1.maxInflight, Inflights(s, e, |e.acked|))
  {
    EventIsSoFar(s, e);
    hide SamplerFed, IsGreatest, EventSoFar;
    SoFarIsGreatest(s, e, |e.acked|);
    if e.acked == [] { NothingSoFar(s, e); }
  }

  // ---- The send state ----

  // The last of the first k acknowledged packets that yields a sample; -1 if none does.
  function LastYield(s: System, e: Event, k: nat): (j: int)
    requires k <= |e.acked|
    ensures -1 <= j < k && (0 <= j ==> Yields(s, e, j))
  {
    if k == 0 then -1 else if Yields(s, e, k - 1) then k - 1 else LastYield(s, e, k - 1)
  }

  // The last of the first k lost packets that is tracked; -1 if none is.
  function LastTrackedLoss(s: System, e: Event, k: nat): (j: int)
    requires k <= |e.lost|
    ensures -1 <= j < k && (0 <= j ==> e.lost[j].packetNumber in s.sampler.packets.live)
  {
    if k == 0 then -1 else if e.lost[k - 1].packetNumber in s.sampler.packets.live then k - 1 else LastTrackedLoss(s, e, k - 1)
  }

  function LastSoFar(s: System, e: Event, k: nat): SendState
    requires k <= |e.acked|
  {
    AfterAcks(AfterLosses(SamplerNotified(s, e), e.lost).0, e.time, e.acked[..k]).last
  }

  lemma LastGoesOn(s: System, e: Event, k: nat)
    requires k < |e.acked|
    ensures LastSoFar(s, e, k + 1) == if LoopSample(s, e, k).state.isValid then LoopSample(s, e, k).state else LastSoFar(s, e, k)
  {
    assert e.acked[..k + 1][..k] == e.acked[..k] && e.acked[..k + 1][k] == e.acked[k];
    hide AckSample, AfterAck, AfterLosses, SamplerNotified;
  }

  lemma {:induction false} AckedStateIs(s: System, e: Event, k: nat)
    requires k <= |e.acked|
    ensures LastSoFar(s, e, k) == if LastYield(s, e, k) < 0 then NO_STATE
                                  else AckedSnapshot(s, e, LastYield(s, e, k)).state.(isValid := true)
  {
    if k == 0 {
      assert e.acked[..0] == [];
      hide AfterLosses, SamplerNotified;
    } else {
      hide LoopSample, LoopSampler, LastSoFar, AckedSnapshot, Yields;
      AckedStateIs(s, e, k - 1);
      LastGoesOn(s, e, k - 1);
      SampleIs(s, e, k - 1);
    }
  }

  lemma {:induction false} LostStateIs(s: System, e: Event, k: nat)
    requires k <= |e.lost|
    ensures AfterLosses(SamplerNotified(s, e), e.lost[..k]).1
            == var j := LastTrackedLoss(s, e, k);
               if j < 0 then NO_STATE else s.sampler.packets.live[e.lost[j].packetNumber].state.(isValid := true)
  {
    if k == 0 {
      assert e.lost[..0] == [];
    } else {
      LostStateIs(s, e, k - 1);
      assert e.lost[..k][..k - 1] == e.lost[..k - 1] && e.lost[..k][k - 1] == e.lost[k - 1];
      LossesKeepPackets(SamplerNotified(s, e), e.lost[..k - 1]);
      hide Target;
    }
  }

  // The send state an event reports is that of its last acknowledged packet that yields a sample, or of its last tracked
  // lost packet when no acknowledged one does or the last packet lost is beyond the last one acknowledged.
  lemma EventStateIs(s: System, e: Event)
    ensures var a, l := LastYield(s, e, |e.acked|), LastTrackedLoss(s, e, |e.lost|);
            var fromLoss := 0 <= l && (a < 0 || e.lost[|e.lost| - 1].packetNumber > e.acked[|e.acked| - 1].packetNumber);
            SamplerFed(s, e).1.lastPacketSendState
            == if fromLoss then s.sampler.packets.live[e.lost[l].packetNumber].state.(isValid := true)
               else if 0 <= a then AckedSnapshot(s, e, a).state.(isValid := true)
               else NO_STATE
  {
    LostStateIs(s, e, |e.lost|);
    AckedStateIs(s, e, |e.acked|);
    assert e.lost[..|e.lost|] == e.lost && e.acked[..|e.acked|] == e.acked;
    hide AfterLosses, AfterAcks, AfterEventEnd, SamplerNotified, EndBandwidth, RoundOf, LastYield, LastTrackedLoss, AckedSnapshot, Yields;
  }

  // ---- The minimum RTT of a run ----

  // The sender's part of a run.
  function Cores(states: seq<System>): seq<Core> { seq(|states|, n requires 0 <= n < |states| => states[n].core) }

  function CoreSteps(states: seq<System>, steps: seq<Step>): seq<C.Step>
    requires |steps| < |states|
  {
    seq(|steps|, n requires 0 <= n < |steps| => CoreStep(states[n], steps[n]))
  }

  lemma CoresRun(delay: nat, states: seq<System>, steps: seq<Step>, maxPackets: int)
    requires IsRun(delay, states, steps) && IsStart(states[0], maxPackets)
    ensures |states| == |steps| + 1
    ensures C.IsRun(Cores(states), CoreSteps(states, steps)) && C.IsStart(Cores(states)[0], maxPackets)
  {
    assert |states| == |steps| + 1;
    hide IsRun, IsStart, C.IsRun, C.IsStart, Sound, SentBy, CoreStep;
    var cores, coreSteps := RunProjectsToCore(delay, states, steps, maxPackets, |steps|);
    assert cores == Cores(states) && coreSteps == CoreSteps(states, steps);
  }

  // The round trips that events up to state i measured since the estimate last expired, those of the event that came
  // with the expiry included.
  function RoundTripsSince(states: seq<System>, steps: seq<Step>, i: nat): seq<int>
    requires i <= |steps| < |states|
  {
    if i == 0 then []
    else
      var before, step := RoundTripsSince(states, steps, i - 1), steps[i - 1];
      if !step.Congestion? || SamplerFed(states[i - 1], step.e).1.rtt == INF_RTT then before
      else if M.Expires(Cores(states), CoreSteps(states, steps), i - 1) then RoundTrips(states[i - 1], step.e, |step.e.acked|)
      else before + RoundTrips(states[i - 1], step.e, |step.e.acked|)
  }

  lemma LeastIsMinimum(least: int, all: seq<int>)
    requires IsLeast(least, INF_RTT, all) && least != INF_RTT
    ensures R.IsMinimum(all, least)
  {
  }

  lemma MinimumJoins(a: seq<int>, m: int, b: seq<int>, n: int)
    requires R.IsMinimum(a, m) && R.IsMinimum(b, n)
    ensures R.IsMinimum(a + b, if n < m then n else m)
  {
  }

  // What a step does to the estimate.
  lemma StepMinimum(delay: nat, states: seq<System>, steps: seq<Step>, maxPackets: int, i: nat)
    requires IsRun(delay, states, steps) && IsStart(states[0], maxPackets) && i < |steps|
    ensures |states| == |steps| + 1
    ensures var min, step := states[i].core.rtt.min, steps[i];
            states[i + 1].core.rtt.min
            == if !step.Congestion? || SamplerFed(states[i], step.e).1.rtt == INF_RTT then min
               else
                 var rtt := SamplerFed(states[i], step.e).1.rtt;
                 if M.Expires(Cores(states), CoreSteps(states, steps), i) || rtt < min || min == 0 then rtt else min
  {
    CoresRun(delay, states, steps, maxPackets);
    hide IsRun, IsStart, C.IsStart, C.Next, C.Enabled, M.Expires, SamplerFed;
    var cores, coreSteps := Cores(states), CoreSteps(states, steps);
    assert C.Enabled(cores[i], coreSteps[i]) && cores[i + 1] == C.Next(cores[i], coreSteps[i]);
    hide C.IsRun;
    R.StepRtt(cores[i], coreSteps[i]);
    if steps[i].Congestion? {
      FactsRtt(states[i], steps[i].e);
      M.MinRttExpiresExactly(cores, coreSteps, maxPackets, i);
      hide FactsOf;
      assert coreSteps[i].f == FactsOf(states[i], steps[i].e);
    }
    hide SamplerSettled;
  }

  lemma FactsRtt(s: System, e: Event)
    ensures FactsOf(s, e).rtt == SamplerFed(s, e).1.rtt
  {
    hide SamplerFed, FilterFed;
  }

  // The sender's minimum RTT is exactly the least round trip of a packet acknowledged since it last expired; none is known
  // until a packet measures one.
  lemma {:induction false} MinRttIsLeastRoundTrip(delay: nat, states: seq<System>, steps: seq<Step>, maxPackets: int, i: nat)
    requires IsRun(delay, states, steps) && IsStart(states[0], maxPackets) && i <= |steps|
    ensures |states| == |steps| + 1
    ensures var all := RoundTripsSince(states, steps, i);
            if all == [] then states[i].core.rtt.min == 0 else states[i].core.rtt.min != 0 && R.IsMinimum(all, states[i].core.rtt.min)
  {
    hide Next, Enabled, IsRun, IsStart, RoundTrips, SamplerFed, M.Expires, R.IsMinimum, C.IsRun, C.IsStart;
    CoresRun(delay, states, steps, maxPackets);
    if i == 0 {
      StartsWithoutRtt(states[0], maxPackets);
    } else {
      MinRttIsLeastRoundTrip(delay, states, steps, maxPackets, i - 1);
      StepMinimum(delay, states, steps, maxPackets, i - 1);
      MinRttIsPositive(delay, states, steps, maxPackets, i);
      var step := steps[i - 1];
      if step.Congestion? && SamplerFed(states[i - 1], step.e).1.rtt != INF_RTT {
        EventRttIsLeast(states[i - 1], step.e);
        hide IsLeast;
        LeastIsMinimum(SamplerFed(states[i - 1], step.e).1.rtt, RoundTrips(states[i - 1], step.e, |step.e.acked|));
        MinimumIsIn(RoundTrips(states[i - 1], step.e, |step.e.acked|), SamplerFed(states[i - 1], step.e).1.rtt);
        if RoundTripsSince(states, steps, i - 1) != [] {
          MinimumJoins(RoundTripsSince(states, steps, i - 1), states[i - 1].core.rtt.min,
                       RoundTrips(states[i - 1], step.e, |step.e.acked|), SamplerFed(states[i - 1], step.e).1.rtt);
        }
      }
    }
  }

  lemma MinimumIsIn(all: seq<int>, m: int)
    requires R.IsMinimum(all, m)
    ensures all != [] && [] + all == all
  {
  }

  lemma MinRttIsPositive(delay: nat, states: seq<System>, steps: seq<Step>, maxPackets: int, i: nat)
    requires IsRun(delay, states, steps) && IsStart(states[0], maxPackets) && 0 < i <= |steps|
    ensures |states| == |steps| + 1
    ensures steps[i - 1].Congestion? ==> 0 < SamplerFed(states[i - 1], steps[i - 1].e).1.rtt
  {
    CoresRun(delay, states, steps, maxPackets);
    hide IsRun, IsStart, C.IsStart, C.Next, SamplerFed, CanPace, Modelled;
    assert C.Enabled(Cores(states)[i - 1], CoreSteps(states, steps)[i - 1]);
    if steps[i - 1].Congestion? { FactsRtt(states[i - 1], steps[i - 1].e); }
    hide FactsOf, SamplerSettled;
  }

  lemma StartsWithoutRtt(s: System, maxPackets: int)
    requires IsStart(s, maxPackets)
    ensures s.core.rtt.min == 0
  {
    hide NewSampler, WithOverestimateAvoidance;
  }

  // ---- The pacing rate of a run ----

  // After every event of every run at full bandwidth, the pacing rate is the mode's gain times the bandwidth filter's
  // estimate, rounded down.
  lemma RateFollowsEstimate(delay: nat, states: seq<System>, steps: seq<Step>, maxPackets: int, i: nat)
    requires IsRun(delay, states, steps) && IsStart(states[0], maxPackets) && i < |steps| && steps[i].Congestion?
    ensures |states| == |steps| + 1
    ensures var r := states[i + 1];
            r.core.growth.full && r.filter.best.sample != 0 ==>
              && V.ScaledDown(r.core.pacing.rate, r.core.gains.pacing, r.filter.best.sample)
              && C.ModeFits(r.core) && r.core.config == states[0].core.config
  {
    CoresRun(delay, states, steps, maxPackets);
    assert Enabled(states[i], steps[i], Now(steps, i)) && states[i + 1] == Next(delay, states[i], steps[i], Now(steps, i));
    hide IsRun, IsStart, C.IsRun, C.IsStart, V.ScaledDown, C.ModeFits, FactsOf, FilterFed, SamplerSettled, AfterFacts, CanPace, Modelled;
    EstimateIsBest(states[i], steps[i].e);
    if states[i + 1].core.growth.full && states[i + 1].filter.best.sample != 0 {
      V.RateFollowsEstimateAtFullBandwidth(Cores(states), CoreSteps(states, steps), maxPackets, i);
    }
  }
}
