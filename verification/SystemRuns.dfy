// Runs of the whole sender: the state machines of the sender, the bandwidth filter, the sampler and the pacer
// moving together. Every such run is a run of the sender alone and a run of the sampler alone, so the results
// about those apply to it.
module SystemRuns {
  import opened AckHeights
  import opened Pacers
  import opened Rates
  import opened SamplerStates
  import opened SenderStates
  import S = SamplerRuns
  import C = SenderRuns

  datatype Step = Congestion(e: Event) | Send(p: Sending) | Resize(size: int)

  function TimeOf(step: Step, now: int): int {
    match step case Congestion(e) => e.time case Send(p) => p.time case Resize(_) => now
  }

  // The clock of a run: the time of the latest step that has one.
  function Now(steps: seq<Step>, i: nat): int
    requires i <= |steps|
  {
    if i == 0 then 0 else TimeOf(steps[i - 1], Now(steps, i - 1))
  }

  // What the connection guarantees: the clock is monotone, packet numbers grow, sizes are not negative, the
  // largest packet acknowledged has been sent, an event reports something, and the datagram size does not shrink.
  predicate Enabled(s: System, step: Step, now: int) {
    now <= TimeOf(step, now) &&
    match step
    case Congestion(e) =>
      CanHandle(s, e) && (e.acked != [] ==> 0 <= LastAcked(e).value <= s.core.lastSent)
    case Send(p) =>
      0 < p.time && 0 <= p.packetNumber && s.core.lastSent < p.packetNumber && 0 <= p.bytes
      && s.pacer.Valid() && 0 <= s.core.rtt.min
    case Resize(size) => 0 < s.core.sizes.datagram <= size
  }

  function Next(delay: nat, s: System, step: Step, now: int): System
    requires Enabled(s, step, now)
  {
    match step
    case Congestion(e) => AfterEvent(s, e)
    case Send(p) => AfterSending(delay, s, p)
    case Resize(size) => AfterResizing(s, size)
  }

  ghost predicate IsRun(delay: nat, states: seq<System>, steps: seq<Step>) {
    && |states| == |steps| + 1
    && forall i | 0 <= i < |steps| ::
         Enabled(states[i], steps[i], Now(steps, i)) && states[i + 1] == Next(delay, states[i], steps[i], Now(steps, i))
  }

  // A sender as UseBBR makes it: its datagram size is at most the pacer's initial one.
  ghost predicate IsStart(s: System, maxPackets: int) {
    && 0 < s.core.sizes.datagram <= s.pacer.datagram && INITIAL_WINDOW_PACKETS <= maxPackets
    && exists profile: Profile ::
         s == NewSystem(ConfigFor(profile), s.core.sizes.datagram, maxPackets, s.core.packetBuffer, s.pacer.datagram)
  }

  // ---- The sampler's part ----

  function NotifiedOps(s: System, e: Event): seq<S.Op> {
    if e.priorInFlight < Target(s.core, s.filter.best.sample, e.rttMin, 1.0) then [S.AppLimited] else []
  }

  function EventOps(s: System, e: Event): seq<S.Op>
    requires e.acked != [] || e.lost != []
  {
    var f := FactsOf(s, e);
    var notified := NotifiedOps(s, e);
    var fed := S.CongestionOps(SamplerNotified(s, e),
                               SamplerStates.Congestion(e.time, e.acked, e.lost, s.filter.best.sample, INF_BANDWIDTH, RoundOf(s.core, e)));
    var expired := if ExpiresHeights(s.core, f) then [S.HeightReset(0, RoundOf(s.core, e))] else [];
    var probing := if ProbesRtt(s.core, f) then [S.AppLimited] else [];
    notified + fed + expired + probing + [S.Pruned(LeastUnacked(e))]
  }

  function StepOps(s: System, step: Step): seq<S.Op>
    requires step.Congestion? ==> step.e.acked != [] || step.e.lost != []
  {
    match step
    case Congestion(e) => EventOps(s, e)
    case Send(p) => [S.Sent(p.time, p.packetNumber, p.bytes, p.bytesInFlight, p.retransmittable)]
    case Resize(_) => []
  }

  lemma OneOp(s: Sampler, op: S.Op)
    ensures S.Run(s, [op]) == S.Step(s, op)
    ensures S.Ordered(s, [op]) <==> S.Sendable(s, op)
  {
    assert [op][..0] == [];
    assert S.Run(s, [op][..0]) == s;
  }

  lemma NoOp(s: Sampler)
    ensures S.Run(s, []) == s && S.Ordered(s, [])
  {
  }

  lemma RunAppends(s: Sampler, a: seq<S.Op>, b: seq<S.Op>, r: Sampler, t: Sampler)
    requires S.Run(s, a) == r && S.Run(r, b) == t && S.NoSends(a) && S.NoSends(b)
    ensures S.Run(s, a + b) == t && S.NoSends(a + b)
  {
    S.RunSplits(s, a, b);
  }

  lemma EventIsSamplerRun(s: System, e: Event)
    requires e.acked != [] || e.lost != []
    ensures S.Run(s.sampler, EventOps(s, e)) == AfterPruned(SamplerSettled(s, e), LeastUnacked(e))
    ensures S.NoSends(EventOps(s, e))
  {
    hide Target, ExpiresHeights, ProbesRtt, FactsOf, AfterCongestion, RoundOf, S.CongestionOps, S.Run;
    var f, round := FactsOf(s, e), RoundOf(s.core, e);
    var notified := NotifiedOps(s, e);
    var s0 := SamplerNotified(s, e);
    OneOp(s.sampler, S.AppLimited);
    NoOp(s.sampler);
    var c := SamplerStates.Congestion(e.time, e.acked, e.lost, s.filter.best.sample, INF_BANDWIDTH, round);
    S.CongestionIsRun(s0, c);
    var fed, s1 := S.CongestionOps(s0, c), AfterCongestion(s0, c).0;
    RunAppends(s.sampler, notified, fed, s0, s1);
    var expired := if ExpiresHeights(s.core, f) then [S.HeightReset(0, round)] else [];
    var s2 := if ExpiresHeights(s.core, f) then AfterHeightReset(s1, 0, round) else s1;
    OneOp(s1, S.HeightReset(0, round));
    NoOp(s1);
    RunAppends(s.sampler, notified + fed, expired, s1, s2);
    var probing := if ProbesRtt(s.core, f) then [S.AppLimited] else [];
    var s3 := if ProbesRtt(s.core, f) then AfterAppLimited(s2) else s2;
    OneOp(s2, S.AppLimited);
    NoOp(s2);
    RunAppends(s.sampler, notified + fed + expired, probing, s2, s3);
    OneOp(s3, S.Pruned(LeastUnacked(e)));
    RunAppends(s.sampler, notified + fed + expired + probing, [S.Pruned(LeastUnacked(e))], s3, AfterPruned(s3, LeastUnacked(e)));
  }

  // Each event before step i reports a packet.
  predicate AllReport(steps: seq<Step>, i: nat)
    requires i <= |steps|
  {
    forall n | 0 <= n < i && steps[n].Congestion? :: steps[n].e.acked != [] || steps[n].e.lost != []
  }

  // Everything the sampler has been told up to state i.
  function SamplerOps(states: seq<System>, steps: seq<Step>, i: nat): seq<S.Op>
    requires i <= |steps| < |states| && AllReport(steps, i)
  {
    if i == 0 then [] else SamplerOps(states, steps, i - 1) + StepOps(states[i - 1], steps[i - 1])
  }

  lemma StepIsSamplerRun(delay: nat, s: System, step: Step, now: int)
    requires Enabled(s, step, now) && s.core.lastSent == s.sampler.lastSentPacket
    ensures var r := Next(delay, s, step, now);
            && r.sampler == S.Run(s.sampler, StepOps(s, step)) && S.Ordered(s.sampler, StepOps(s, step))
            && r.core.lastSent == r.sampler.lastSentPacket
  {
    match step
    case Congestion(e) =>
      EventIsSamplerRun(s, e);
      S.NoSendsIsOrdered(s.sampler, EventOps(s, e));
      NoSendsKeepLastSent(s.sampler, EventOps(s, e));
      if CanPace(Modelled(s.core, FactsOf(s, e)), FactsOf(s, e)) { CoreKeepsLastSent(s.core, FactsOf(s, e)); }
      hide SamplerSettled, EventOps, Modelled, FactsOf, FilterFed, PacingUpdated, WindowUpdated, RecoveryWindowUpdated, CanPace;
    case Send(p) =>
      OneOp(s.sampler, StepOps(s, step)[0]);
      hide BeforeTracking, Pacers.AfterSend, PacerBandwidth;
    case Resize(_) =>
      NoOp(s.sampler);
  }

  lemma CoreKeepsLastSent(c: Core, f: Facts)
    ensures Modelled(c, f).lastSent == c.lastSent
  {
    C.ModelKeepsWindows(c, f);
    hide Modelled;
  }

  lemma {:induction false} NoSendsKeepLastSent(s: Sampler, ops: seq<S.Op>)
    requires S.NoSends(ops)
    ensures S.Run(s, ops).lastSentPacket == s.lastSentPacket
  {
    if ops != [] {
      NoSendsKeepLastSent(s, ops[..|ops| - 1]);
      KeepsLastSent(S.Run(s, ops[..|ops| - 1]), ops[|ops| - 1]);
      hide S.Step;
    }
  }

  lemma KeepsLastSent(s: Sampler, op: S.Op)
    requires !op.Sent?
    ensures S.Step(s, op).lastSentPacket == s.lastSentPacket
  {
    hide Observed, DroppedByChoice;
  }

  // The sampler inside a run of the sender has been through an orderly run of its own.
  lemma {:induction false} RunProjectsToSampler(delay: nat, states: seq<System>, steps: seq<Step>, maxPackets: int, i: nat)
    requires IsRun(delay, states, steps) && IsStart(states[0], maxPackets) && i <= |steps|
    ensures AllReport(steps, i)
    ensures S.Unused(states[0].sampler)
    ensures S.Ordered(states[0].sampler, SamplerOps(states, steps, i))
    ensures states[i].sampler == S.Run(states[0].sampler, SamplerOps(states, steps, i))
    ensures states[i].core.lastSent == states[i].sampler.lastSentPacket
  {
    if i == 0 {
      StartsUnused(states[0], maxPackets);
      NoOp(states[0].sampler);
    } else {
      hide Next, StepOps, IsStart, S.Run, S.Ordered, S.Unused;
      RunProjectsToSampler(delay, states, steps, maxPackets, i - 1);
      var s, step := states[i - 1], steps[i - 1];
      assert Enabled(s, step, Now(steps, i - 1)) && states[i] == Next(delay, s, step, Now(steps, i - 1));
      hide IsRun;
      StepIsSamplerRun(delay, s, step, Now(steps, i - 1));
      S.RunSplits(states[0].sampler, SamplerOps(states, steps, i - 1), StepOps(s, step));
    }
  }

  lemma StartsUnused(s: System, maxPackets: int)
    requires IsStart(s, maxPackets)
    ensures S.Unused(s.sampler) && s.core.lastSent == s.sampler.lastSentPacket
  {
  }
}
