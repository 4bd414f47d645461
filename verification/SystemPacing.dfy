// The pacer inside the whole sender: in every run whose sends keep to the pacing budget, the bytes sent in any
// interval are bounded by a burst and the capped rate.
module SystemPacing {
  import opened Pacers
  import opened Rates
  import opened SenderStates
  import opened SystemLaws
  import opened SystemRuns
  import P = Pacers

  // The rate the pacer is asked about is defined, and sizes are not negative, as in every run.
  predicate SendsDefined(s: System, step: Step) { step.Send? ==> 0 <= s.core.rtt.min && 0 <= step.p.bytes }

  predicate AllDefined(states: seq<System>, steps: seq<Step>, i: nat)
    requires i <= |steps| < |states|
  {
    forall n | 0 <= n < i :: SendsDefined(states[n], steps[n])
  }

  // What a step tells the pacer.
  function PacerOps(s: System, step: Step): seq<P.Op>
    requires SendsDefined(s, step)
  {
    match step
    case Congestion(_) => []
    case Send(p) => [P.Op.Send(p.time, p.bytes, PacerBandwidth(s.core, p.rttMin))]
    case Resize(size) => [P.Op.Resize(size)]
  }

  function ToldPacer(states: seq<System>, steps: seq<Step>, i: nat): seq<P.Op>
    requires i <= |steps| < |states| && AllDefined(states, steps, i)
  {
    if i == 0 then [] else ToldPacer(states, steps, i - 1) + PacerOps(states[i - 1], steps[i - 1])
  }

  // A send keeps to the budget, at no more than the capped bandwidth; a new datagram size is within its cap.
  predicate Paced(delay: nat, s: System, step: Step, maxBandwidth: nat, maxDatagram: nat)
    requires SendsDefined(s, step) && s.pacer.Valid()
  {
    match step
    case Congestion(_) => true
    case Send(p) =>
      var bandwidth := PacerBandwidth(s.core, p.rttMin);
      bandwidth <= maxBandwidth && p.bytes <= BudgetAt(delay, s.pacer, bandwidth, p.time)
    case Resize(size) => size <= maxDatagram
  }

  ghost predicate AllPaced(delay: nat, states: seq<System>, steps: seq<Step>, i: nat, maxBandwidth: nat, maxDatagram: nat)
    requires i <= |steps| < |states|
  {
    && states[0].pacer.datagram <= maxDatagram
    && forall n | 0 <= n < i ::
         SendsDefined(states[n], steps[n]) && states[n].pacer.Valid() && Paced(delay, states[n], steps[n], maxBandwidth, maxDatagram)
  }

  lemma StepIsPacerRun(delay: nat, s: System, step: Step, now: int, maxBandwidth: nat, maxDatagram: nat)
    requires Enabled(s, step, now) && s.pacer.Valid() && s.pacer.lastSent <= now
    requires SendsDefined(s, step) && Paced(delay, s, step, maxBandwidth, maxDatagram)
    ensures var r := Next(delay, s, step, now);
            && r.pacer.lastSent <= TimeOf(step, now)
            && match step
               case Congestion(_) => r.pacer == s.pacer
               case _ => Fits(delay, s.pacer, PacerOps(s, step)[0], maxBandwidth, maxDatagram)
                         && r.pacer == P.Step(delay, s.pacer, PacerOps(s, step)[0])
  {
    hide CanHandle, AfterFacts, SamplerSettled, FilterFed, FactsOf, BudgetAt, PacerBandwidth, Resized, SamplerStates.AfterSent;
  }

  lemma PacerRunExtends(delay: nat, b: Bucket, ops: seq<P.Op>, op: P.Op, maxBandwidth: nat, maxDatagram: nat)
    requires b.Valid() && P.Run(delay, b, ops, maxBandwidth, maxDatagram).Some?
    requires Fits(delay, P.Run(delay, b, ops, maxBandwidth, maxDatagram).value, op, maxBandwidth, maxDatagram)
    ensures P.Run(delay, b, ops + [op], maxBandwidth, maxDatagram)
            == Options.Some(P.Step(delay, P.Run(delay, b, ops, maxBandwidth, maxDatagram).value, op))
  {
    assert (ops + [op])[..|ops + [op]| - 1] == ops;
  }

  // The pacer inside a run that keeps to its budget has been through a conforming run of its own.
  lemma {:induction false} RunProjectsToPacer(delay: nat, states: seq<System>, steps: seq<Step>, maxPackets: int, i: nat,
                                              maxBandwidth: nat, maxDatagram: nat)
    requires IsRun(delay, states, steps) && IsStart(states[0], maxPackets) && i <= |steps|
    requires AllPaced(delay, states, steps, i, maxBandwidth, maxDatagram)
    ensures |states| == |steps| + 1
    ensures AllDefined(states, steps, i) && states[i].pacer.lastSent <= Now(steps, i)
    ensures states[0].pacer.Valid() && states[0].pacer.datagram <= maxDatagram
    ensures P.Run(delay, states[0].pacer, ToldPacer(states, steps, i), maxBandwidth, maxDatagram) == Options.Some(states[i].pacer)
  {
    hide Next, Enabled, IsStart, Paced, SendsDefined, Sound, SentBy, PacerOps, Fits;
    if i == 0 {
      StartsUnsent(states[0], maxPackets);
    } else {
      RunProjectsToPacer(delay, states, steps, maxPackets, i - 1, maxBandwidth, maxDatagram);
      var s, step, now := states[i - 1], steps[i - 1], Now(steps, i - 1);
      assert Enabled(s, step, now) && states[i] == Next(delay, s, step, now);
      hide IsRun;
      StepIsPacerRun(delay, s, step, now, maxBandwidth, maxDatagram);
      PacerOpsAreOne(s, step);
      if step.Congestion? {
        assert ToldPacer(states, steps, i) == ToldPacer(states, steps, i - 1);
      } else {
        assert ToldPacer(states, steps, i) == ToldPacer(states, steps, i - 1) + [PacerOps(s, step)[0]];
        PacerRunExtends(delay, states[0].pacer, ToldPacer(states, steps, i - 1), PacerOps(s, step)[0], maxBandwidth, maxDatagram);
      }
    }
  }

  lemma PacerOpsAreOne(s: System, step: Step)
    requires SendsDefined(s, step)
    ensures |PacerOps(s, step)| == if step.Congestion? then 0 else 1
    ensures step.Send? ==> PacerOps(s, step)[0].Send? && PacerOps(s, step)[0].time == step.p.time
  {
    hide PacerBandwidth;
  }

  lemma StartsUnsent(s: System, maxPackets: int)
    requires IsStart(s, maxPackets)
    ensures s.pacer.Valid() && s.pacer.lastSent == 0
  {
    hide NewCore;
  }

  // ---- Intervals ----

  // The bytes of the sends from step j up to, not including, step k.
  function BytesSent(steps: seq<Step>, j: nat, k: nat): int
    requires k <= |steps|
  {
    if k <= j then 0 else BytesSent(steps, j, k - 1) + if steps[k - 1].Send? then steps[k - 1].p.bytes else 0
  }

  // What the pacer is told in those steps.
  function ToldBetween(states: seq<System>, steps: seq<Step>, j: nat, k: nat): seq<P.Op>
    requires k <= |steps| < |states| && AllDefined(states, steps, k)
  {
    if k <= j then [] else ToldBetween(states, steps, j, k - 1) + PacerOps(states[k - 1], steps[k - 1])
  }

  lemma {:induction false} BytesAdd(a: seq<P.Op>, b: seq<P.Op>)
    ensures Bytes(a + b) == Bytes(a) + Bytes(b)
  {
    if b == [] {
      assert a + b == a;
    } else {
      assert (a + b)[..|a + b| - 1] == a + b[..|b| - 1];
      BytesAdd(a, b[..|b| - 1]);
    }
  }

  lemma {:induction false} ToldSplits(states: seq<System>, steps: seq<Step>, j: nat, k: nat)
    requires j <= k <= |steps| < |states| && AllDefined(states, steps, k)
    ensures AllDefined(states, steps, j)
    ensures ToldPacer(states, steps, k) == ToldPacer(states, steps, j) + ToldBetween(states, steps, j, k)
    decreases k
  {
    if j < k {
      hide PacerOps;
      ToldSplits(states, steps, j, k - 1);
      Associates(ToldPacer(states, steps, j), ToldBetween(states, steps, j, k - 1), PacerOps(states[k - 1], steps[k - 1]));
    }
  }

  lemma Associates<T>(a: seq<T>, b: seq<T>, c: seq<T>)
    ensures (a + b) + c == a + (b + c)
  {
  }

  lemma {:induction false} BytesBetween(states: seq<System>, steps: seq<Step>, j: nat, k: nat)
    requires j <= k <= |steps| < |states| && AllDefined(states, steps, k)
    ensures Bytes(ToldBetween(states, steps, j, k)) == BytesSent(steps, j, k)
    decreases k
  {
    hide PacerOps, Bytes, SendsDefined, AllDefined;
    if j < k {
      DefinedBefore(states, steps, k);
      BytesBetween(states, steps, j, k - 1);
      BytesAdd(ToldBetween(states, steps, j, k - 1), PacerOps(states[k - 1], steps[k - 1]));
      BytesOfStep(states[k - 1], steps[k - 1]);
    } else {
      NoBytes();
    }
  }

  lemma NoBytes()
    ensures Bytes([]) == 0
  {
  }

  lemma DefinedBefore(states: seq<System>, steps: seq<Step>, k: nat)
    requires 0 < k <= |steps| < |states| && AllDefined(states, steps, k)
    ensures AllDefined(states, steps, k - 1) && SendsDefined(states[k - 1], steps[k - 1])
  {
  }

  lemma BytesOfStep(s: System, step: Step)
    requires SendsDefined(s, step)
    ensures Bytes(PacerOps(s, step)) == if step.Send? then step.p.bytes else 0
  {
    hide PacerBandwidth;
    var ops := PacerOps(s, step);
    if ops != [] { assert ops[..|ops| - 1] == [] && Bytes([]) == 0; }
  }

  // Those of an interval from one send to another begin with the one and end with the other.
  lemma {:induction false} IntervalEnds(states: seq<System>, steps: seq<Step>, j: nat, k: nat)
    requires j < k <= |steps| < |states| && AllDefined(states, steps, k) && steps[j].Send?
    ensures var ops := ToldBetween(states, steps, j, k);
            && ops != [] && ops[0].Send? && ops[0].time == steps[j].p.time
            && (steps[k - 1].Send? ==> ops[|ops| - 1].Send? && ops[|ops| - 1].time == steps[k - 1].p.time)
    decreases k
  {
    hide PacerOps, SendsDefined;
    var one := PacerOps(states[k - 1], steps[k - 1]);
    PacerOpsAreOne(states[k - 1], steps[k - 1]);
    if j + 1 < k {
      IntervalEnds(states, steps, j, k - 1);
      if steps[k - 1].Send? {
        assert (ToldBetween(states, steps, j, k - 1) + one)[|ToldBetween(states, steps, j, k - 1)|] == one[0];
      } else if one == [] {
        assert ToldBetween(states, steps, j, k) == ToldBetween(states, steps, j, k - 1);
      }
    } else {
      assert ToldBetween(states, steps, j, j) == [];
      assert ToldBetween(states, steps, j, k) == one;
    }
  }

  // The bound for an operation sequence that ends in an interval.
  lemma IntervalConforms(delay: nat, b: Bucket, a: seq<P.Op>, ops: seq<P.Op>, maxBandwidth: nat, maxDatagram: nat,
                         elapsed: int)
    requires Conforms(delay, b, a + ops, maxBandwidth, maxDatagram)
    requires ops != [] && ops[0].Send? && ops[|ops| - 1].Send? && ops[|ops| - 1].time - ops[0].time == elapsed
    ensures Bytes(ops) <= MaxBurst(delay, maxBandwidth, maxDatagram) + maxBandwidth * elapsed / SECOND
  {
    hide Conforms, MaxBurst, Bytes;
    TokenBucketConformance(delay, b, a + ops, maxBandwidth, maxDatagram, |a|, |a| + |ops| - 1);
    assert (a + ops)[|a|..|a| + |ops| - 1 + 1] == ops;
  }

  // In every run of the whole that keeps to its budget, the bytes sent between two sends, both included, are at most
  // a burst plus the capped rate times the time between them, rounded down.
  lemma SenderIsPaced(delay: nat, states: seq<System>, steps: seq<Step>, maxPackets: int, j: nat, k: nat,
                      maxBandwidth: nat, maxDatagram: nat)
    requires IsRun(delay, states, steps) && IsStart(states[0], maxPackets) && j <= k < |steps| && steps[j].Send? && steps[k].Send?
    requires AllPaced(delay, states, steps, k + 1, maxBandwidth, maxDatagram)
    ensures BytesSent(steps, j, k + 1)
            <= MaxBurst(delay, maxBandwidth, maxDatagram) + maxBandwidth * (steps[k].p.time - steps[j].p.time) / SECOND
  {
    hide IsRun, IsStart, AllPaced, MaxBurst, P.Run, AllDefined, ToldPacer, ToldBetween, BytesSent, Bytes, Now, Next, Enabled;
    RunProjectsToPacer(delay, states, steps, maxPackets, k + 1, maxBandwidth, maxDatagram);
    ToldSplits(states, steps, j, k + 1);
    BytesBetween(states, steps, j, k + 1);
    IntervalEnds(states, steps, j, k + 1);
    IntervalConforms(delay, states[0].pacer, ToldPacer(states, steps, j), ToldBetween(states, steps, j, k + 1), maxBandwidth, maxDatagram,
                     steps[k].p.time - steps[j].p.time);
  }
}
