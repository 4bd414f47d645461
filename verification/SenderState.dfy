// The BBR sender of bbr/bbr_sender.go as a state machine. Core is what the sender itself stores; the bandwidth
// filter, the sampler and the pacer are the machines of the other modules. Gains are exact reals, times are
// nanoseconds with 0 for the zero time, and the connection's own minimum RTT and the random draw are inputs.
module SenderStates {
  import opened Options
  import opened Pacers
  import opened Rates
  import opened SamplerStates
  import opened WindowedFilters

  const MILLISECOND := 1_000_000
  const MIN_BPS := 65536
  const INITIAL_WINDOW_PACKETS := 32
  const MIN_WINDOW_PACKETS := 4
  const GAIN_CYCLE_LENGTH := 8
  const BANDWIDTH_WINDOW := GAIN_CYCLE_LENGTH + 2
  const MIN_RTT_EXPIRY := 10 * SECOND
  const PROBE_RTT_TIME := 200 * MILLISECOND
  const STARTUP_GROWTH_TARGET := 1.25
  const STARTUP_FULL_LOSS_COUNT := 8
  const LOSS_THRESHOLD := 0.02

  datatype Mode = Startup | Drain | ProbeBw | ProbeRtt

  datatype RecoveryState = NotInRecovery | Conservation | SlowGrowth

  datatype Profile = Conservative | Standard | Aggressive

  datatype Config = Config(
    highGain: real,
    highCwndGain: real,
    drainGain: real,
    cwndGainConstant: real,
    numStartupRtts: nat,
    drainToTarget: bool,
    detectOvershooting: bool,
    bytesLostMultiplier: nat,
    ackAggregationInStartup: bool,
    expireAckAggregationInStartup: bool,
    overestimateAvoidance: bool,
    reduceExtraAcked: bool)

  function ConfigFor(profile: Profile): Config {
    match profile
    case Conservative => Config(2.25, 1.75, 1.0 / 2.25, 1.75, 2, true, true, 1, false, false, true, true)
    case Standard => Config(2.885, 2.0, 1.0 / 2.885, 2.0, 3, false, false, 2, false, false, false, false)
    case Aggressive => Config(3.0, 2.25, 1.0 / 3.0, 2.5, 4, false, false, 2, true, true, false, false)
  }

  function CycleGain(offset: int): real { if offset == 0 then 1.25 else if offset == 1 then 0.75 else 1.0 }

  // The stored state, grouped by what changes together.
  datatype Sizes = Sizes(
    datagram: int,  // maxDatagramSize
    initial: int,  // initialCongestionWindow
    most: int,  // maxCongestionWindow
    least: int,  // minCongestionWindow
    pacingFloor: int)  // cwndToCalculateMinPacingRate

  datatype Gains = Gains(
    mode: Mode,
    pacing: real,  // pacingGain
    window: real,  // congestionWindowGain
    offset: int,  // cycleCurrentOffset
    cycleStart: int)  // lastCycleStart

  datatype Rounds = Rounds(
    count: int,  // roundTripCount
    end: int,  // currentRoundTripEnd
    lossEvents: int,  // numLossEventsInRound
    bytesLost: int)  // bytesLostInRound

  datatype Rtt = Rtt(
    min: int,  // minRtt
    timestamp: int)  // minRttTimestamp

  datatype Probe = Probe(
    exitAt: int,  // exitProbeRttAt
    roundPassed: bool,  // probeRttRoundPassed
    exitingQuiescence: bool)

  datatype Growth = Growth(
    full: bool,  // isAtFullBandwidth
    roundsWithoutGain: int,  // roundsWithoutBandwidthGain
    bandwidthAtLastRound: int,
    lastAppLimited: bool,  // lastSampleIsAppLimited
    hasNoAppLimited: bool)  // hasNoAppLimitedSample

  datatype Recovery = Recovery(
    state: RecoveryState,
    endAt: int,  // endRecoveryAt
    window: int)  // recoveryWindow

  datatype Pacing = Pacing(
    rate: int,  // pacingRate
    detectOvershooting: bool,
    bytesLost: int)  // bytesLostWhileDetectingOvershooting

  datatype Core = Core(
    config: Config,
    packetBuffer: int,  // MaxPacketBufferSize
    lastSent: int,  // lastSentPacket
    inFlight: int,  // bytesInFlight
    window: int,  // congestionWindow
    sizes: Sizes,
    gains: Gains,
    rounds: Rounds,
    rtt: Rtt,
    probe: Probe,
    growth: Growth,
    recovery: Recovery,
    pacing: Pacing)

  function NewCore(config: Config, datagram: int, maxPackets: int, packetBuffer: int): Core {
    var initial, most := INITIAL_WINDOW_PACKETS * datagram, maxPackets * datagram;
    Core(config, packetBuffer, INVALID_PACKET, 0, initial,
         Sizes(datagram, initial, most, MIN_WINDOW_PACKETS * datagram, initial),
         Gains(Startup, config.highGain, config.highCwndGain, 0, 0),
         Rounds(0, INVALID_PACKET, 0, 0),
         Rtt(0, 0),
         Probe(0, false, false),
         Growth(false, 0, 0, false, false),
         Recovery(NotInRecovery, INVALID_PACKET, most),
         Pacing(0, config.detectOvershooting, 0))
  }

  // What one congestion event brings to the sender: its own arguments, the bandwidth estimate after the filter
  // was updated, and what the sampler reported.
  datatype Facts = Facts(
    time: int,
    priorInFlight: int,
    inFlight: int,
    lastAcked: Option<int>,
    hasLosses: bool,
    rttMin: nat,
    random: nat,
    bandwidth: int,
    sendState: SendState,
    rtt: int,
    bytesAcked: int,
    bytesLost: int,
    extraAcked: int,
    totalAcked: int)

  // ---- Estimates ----

  function MinRtt(c: Core, rttMin: int): int {
    if c.rtt.min != 0 then c.rtt.min else if rttMin == 0 then 100 * MILLISECOND else rttMin
  }

  function Bdp(rtt: int, bandwidth: int): int { rtt * bandwidth / 8 / SECOND }

  function Target(c: Core, bandwidth: int, rttMin: int, gain: real): (window: int)
    ensures c.sizes.least <= window
  {
    var window := Scale(gain, Bdp(MinRtt(c, rttMin), bandwidth));
    Max(if window == 0 then Scale(gain, c.sizes.initial) else window, c.sizes.least)
  }

  // ---- Rounds and recovery ----

  function StartsRound(c: Core, lastAcked: int): bool { c.rounds.end == INVALID_PACKET || lastAcked > c.rounds.end }

  function RoundUpdated(c: Core, lastAcked: int): Core {
    if StartsRound(c, lastAcked) then c.(rounds := c.rounds.(count := c.rounds.count + 1, end := c.lastSent)) else c
  }

  function RecoveryUpdated(c: Core, lastAcked: int, hasLosses: bool, isRoundStart: bool): Core {
    if !c.growth.full then c
    else
      var endAt := if hasLosses then c.lastSent else c.recovery.endAt;
      if c.recovery.state == NotInRecovery then
        if hasLosses
        then c.(recovery := Recovery(Conservation, endAt, 0), rounds := c.rounds.(end := c.lastSent))
        else c
      else
        var state := if !hasLosses && lastAcked > endAt then NotInRecovery
                     else if c.recovery.state == Conservation && isRoundStart then SlowGrowth
                     else c.recovery.state;
        c.(recovery := Recovery(state, endAt, c.recovery.window))
  }

  function Begun(c: Core, f: Facts): Core {
    var r := c.(inFlight := f.inFlight);
    if f.lastAcked.None? then r
    else RecoveryUpdated(RoundUpdated(r, f.lastAcked.value), f.lastAcked.value, f.hasLosses, StartsRound(c, f.lastAcked.value))
  }

  predicate IsRoundStart(c: Core, f: Facts) { f.lastAcked.Some? && StartsRound(c, f.lastAcked.value) }

  // ---- The model ----

  function SampleNoted(g: Growth, f: Facts): Growth {
    if !f.sendState.isValid then g
    else g.(lastAppLimited := f.sendState.isAppLimited, hasNoAppLimited := g.hasNoAppLimited || !f.sendState.isAppLimited)
  }

  predicate MinRttExpires(rtt: Rtt, f: Facts) {
    f.rtt != INF_RTT && rtt.min != 0 && f.time > rtt.timestamp + MIN_RTT_EXPIRY
  }

  function MinRttUpdated(rtt: Rtt, f: Facts): Rtt {
    if f.rtt != INF_RTT && (MinRttExpires(rtt, f) || f.rtt < rtt.min || rtt.min == 0) then Rtt(f.rtt, f.time) else rtt
  }

  function LossesCounted(r: Rounds, f: Facts): Rounds {
    if f.hasLosses then r.(lossEvents := r.lossEvents + 1, bytesLost := r.bytesLost + f.bytesLost) else r
  }

  predicate AdvancesCycle(c: Core, f: Facts) {
    || (c.gains.pacing < 1.0 && c.inFlight <= Target(c, f.bandwidth, f.rttMin, 1.0))
    || (f.time > c.gains.cycleStart + MinRtt(c, f.rttMin)
        && !(c.gains.pacing > 1.0 && !f.hasLosses && f.priorInFlight < Target(c, f.bandwidth, f.rttMin, c.gains.pacing)))
  }

  // Low gain is held over a neutral slot until the queue is drained.
  predicate HoldsLowGain(c: Core, f: Facts, offset: int) {
    && c.config.drainToTarget && c.gains.pacing < 1.0 && CycleGain(offset) == 1.0
    && c.inFlight > Target(c, f.bandwidth, f.rttMin, 1.0)
  }

  function GainCycled(c: Core, f: Facts): Gains {
    if c.gains.mode != ProbeBw || !AdvancesCycle(c, f) then c.gains
    else
      var offset := (c.gains.offset + 1) % GAIN_CYCLE_LENGTH;
      c.gains.(offset := offset, cycleStart := f.time,
               pacing := if HoldsLowGain(c, f, offset) then c.gains.pacing else CycleGain(offset))
  }

  predicate LosesTooMuch(r: Rounds, f: Facts) {
    && STARTUP_FULL_LOSS_COUNT <= r.lossEvents && f.sendState.isValid
    && 0 < f.sendState.bytesInFlight && 0 < r.bytesLost
    && r.bytesLost > Scale(LOSS_THRESHOLD, f.sendState.bytesInFlight)
  }

  predicate Grows(g: Growth, bandwidth: int) { bandwidth >= Scale(STARTUP_GROWTH_TARGET, g.bandwidthAtLastRound) }

  predicate ChecksGrowth(g: Growth, isRoundStart: bool) { isRoundStart && !g.full && !g.lastAppLimited }

  function FullBandwidthChecked(c: Core, f: Facts, isRoundStart: bool): Growth {
    var g := c.growth;
    if !ChecksGrowth(g, isRoundStart) then g
    else if Grows(g, f.bandwidth) then g.(bandwidthAtLastRound := f.bandwidth, roundsWithoutGain := 0)
    else
      var rounds := g.roundsWithoutGain + 1;
      g.(roundsWithoutGain := rounds, full := rounds >= c.config.numStartupRtts || LosesTooMuch(c.rounds, f))
  }

  // The stages of the model up to the point where the mode is reconsidered.
  function Measured(c: Core, f: Facts): Core {
    var b := Begun(c, f);
    b.(growth := SampleNoted(b.growth, f), rtt := MinRttUpdated(b.rtt, f), rounds := LossesCounted(b.rounds, f))
  }

  function Cycled(c: Core, f: Facts): Core { var m := Measured(c, f); m.(gains := GainCycled(m, f)) }

  function Sampled(c: Core, f: Facts): Core {
    var m := Cycled(c, f);
    m.(growth := FullBandwidthChecked(m, f, IsRoundStart(c, f)))
  }

  // ---- Modes ----

  function EnteredStartup(g: Gains, config: Config): Gains {
    g.(mode := Startup, pacing := config.highGain, window := config.highCwndGain)
  }

  // One of the offsets 0, 2, 3, ..., 7.
  function CycleStart(random: nat): (offset: int)
    ensures 0 <= offset < GAIN_CYCLE_LENGTH && offset != 1
  {
    var offset := random % (GAIN_CYCLE_LENGTH - 1);
    if offset >= 1 then offset + 1 else offset
  }

  function EnteredProbeBw(config: Config, f: Facts): Gains {
    Gains(ProbeBw, CycleGain(CycleStart(f.random)), config.cwndGainConstant, CycleStart(f.random), f.time)
  }

  function StartupOrDrainLeft(c: Core, f: Facts): Gains {
    var g := if c.gains.mode == Startup && c.growth.full
             then c.gains.(mode := Drain, pacing := c.config.drainGain, window := c.config.highCwndGain)
             else c.gains;
    if g.mode == Drain && c.inFlight <= Target(c, f.bandwidth, f.rttMin, 1.0) then EnteredProbeBw(c.config, f) else g
  }

  predicate EntersProbeRtt(c: Core, mode: Mode, minRttExpired: bool) {
    minRttExpired && !c.probe.exitingQuiescence && mode != ProbeRtt
  }

  // Sampled, moved on from STARTUP or DRAIN, and moved into PROBE_RTT when the minimum RTT has expired.
  function Moved(c: Core, f: Facts): Core {
    var m := Sampled(c, f);
    var g := StartupOrDrainLeft(m, f);
    if EntersProbeRtt(m, g.mode, MinRttExpires(c.rtt, f))
    then m.(gains := g.(mode := ProbeRtt, pacing := 1.0), probe := m.probe.(exitAt := 0))
    else m.(gains := g)
  }

  // Whether this event ends the stay in PROBE_RTT.
  predicate LeavesProbeRtt(c: Core, f: Facts, isRoundStart: bool) {
    c.gains.mode == ProbeRtt && c.probe.exitAt != 0 && f.time - c.probe.exitAt >= 0 && (c.probe.roundPassed || isRoundStart)
  }

  function ProbeServed(c: Core, f: Facts, isRoundStart: bool): Probe {
    var p := c.probe;
    if c.gains.mode != ProbeRtt then p
    else if p.exitAt == 0 then
      if c.inFlight < c.sizes.least + c.packetBuffer
      then p.(exitAt := f.time + PROBE_RTT_TIME, roundPassed := false) else p
    else if isRoundStart then p.(roundPassed := true)
    else p
  }

  function Modelled(c: Core, f: Facts): Core {
    var m := Moved(c, f);
    var isRoundStart := IsRoundStart(c, f);
    var leaves := LeavesProbeRtt(m, f, isRoundStart);
    m.(probe := ProbeServed(m, f, isRoundStart).(exitingQuiescence := false),
       rtt := if leaves then m.rtt.(timestamp := f.time) else m.rtt,
       gains := if !leaves then m.gains
                else if !m.growth.full then EnteredStartup(m.gains, m.config)
                else EnteredProbeBw(m.config, f))
  }

  // ---- Rates and windows ----

  predicate Overshoots(c: Core, f: Facts) {
    && f.bandwidth != 0 && !c.growth.full && !(c.pacing.rate == 0 && f.rttMin != 0)
    && c.pacing.detectOvershooting
    && c.pacing.rate > Scale(c.gains.pacing, f.bandwidth) && 0 < c.pacing.bytesLost + f.bytesLost
    && (c.growth.hasNoAppLimited || (c.pacing.bytesLost + f.bytesLost) * c.config.bytesLostMultiplier > c.sizes.initial)
  }

  // The overshooting branch divides by the connection's minimum RTT, and panics when there is none.
  predicate CanPace(c: Core, f: Facts) { Overshoots(c, f) ==> 0 < f.rttMin }

  function PacingUpdated(c: Core, f: Facts): Pacing
    requires CanPace(c, f)
  {
    var p, targetRate := c.pacing, Scale(c.gains.pacing, f.bandwidth);
    if f.bandwidth == 0 then p
    else if c.growth.full then p.(rate := targetRate)
    else if p.rate == 0 && f.rttMin != 0 then p.(rate := BandwidthFromDelta(c.sizes.initial, f.rttMin))
    else if Overshoots(c, f) then
      Pacing(Max(targetRate, BandwidthFromDelta(c.sizes.pacingFloor, f.rttMin)), false, 0)
    else
      p.(rate := Max(p.rate, targetRate), bytesLost := if p.detectOvershooting then p.bytesLost + f.bytesLost else p.bytesLost)
  }

  function AckAllowance(c: Core, f: Facts, maxAckHeight: int): int {
    if c.growth.full then maxAckHeight else if c.config.ackAggregationInStartup then f.extraAcked else 0
  }

  function WindowUpdated(c: Core, f: Facts, maxAckHeight: int): int {
    if c.gains.mode == ProbeRtt then c.window
    else
      var target := Target(c, f.bandwidth, f.rttMin, c.gains.window) + AckAllowance(c, f, maxAckHeight);
      var window := if c.growth.full then Min(target, c.window + f.bytesAcked)
                    else if c.window < target || f.totalAcked < c.sizes.initial then c.window + f.bytesAcked
                    else c.window;
      Min(Max(window, c.sizes.least), c.sizes.most)
  }

  function RecoveryFloor(c: Core, f: Facts): int { Target(c, f.bandwidth, f.rttMin, 1.0) / 2 }

  function RecoveryWindowUpdated(c: Core, f: Facts): int {
    if c.recovery.state == NotInRecovery then c.recovery.window
    else if c.recovery.window == 0 then Max(Max(c.sizes.least, c.inFlight + f.bytesAcked), RecoveryFloor(c, f))
    else
      var afterLoss := if c.recovery.window >= f.bytesLost then c.recovery.window - f.bytesLost else c.sizes.datagram;
      var grown := if c.recovery.state == SlowGrowth then afterLoss + f.bytesAcked else afterLoss;
      Max(Max(c.sizes.least, Max(grown, c.inFlight + f.bytesAcked)), RecoveryFloor(c, f))
  }

  function RoundClosed(r: Rounds, isRoundStart: bool): Rounds {
    if isRoundStart then r.(lossEvents := 0, bytesLost := 0) else r
  }

  function AfterFacts(c: Core, f: Facts, maxAckHeight: int): Core
    requires CanPace(Modelled(c, f), f)
  {
    var m := Modelled(c, f);
    m.(pacing := PacingUpdated(m, f),
       window := WindowUpdated(m, f, maxAckHeight),
       recovery := m.recovery.(window := RecoveryWindowUpdated(m, f)),
       rounds := RoundClosed(m.rounds, IsRoundStart(c, f)))
  }

  function InRecovery(c: Core): bool { c.recovery.state != NotInRecovery }

  function CongestionWindow(c: Core): int {
    if c.gains.mode == ProbeRtt then c.sizes.least
    else if InRecovery(c) then Min(c.window, c.recovery.window)
    else c.window
  }

  // ---- Sending and resizing ----

  function AfterSend(c: Core, packetNumber: int, bytesInFlight: int): Core {
    c.(lastSent := packetNumber, inFlight := bytesInFlight,
       probe := c.probe.(exitingQuiescence := c.probe.exitingQuiescence || bytesInFlight == 0))
  }

  function Rescale(window: int, oldSize: int, newSize: int): int
    requires 0 < oldSize
  {
    if oldSize == newSize then window else window * newSize / oldSize
  }

  function SizesRescaled(s: Sizes, size: int): Sizes
    requires 0 < s.datagram
  {
    Sizes(size, Rescale(s.initial, s.datagram, size), Rescale(s.most, s.datagram, size), MIN_WINDOW_PACKETS * size,
          Rescale(s.pacingFloor, s.datagram, size))
  }

  // Shrinking the datagram size panics.
  function Resized(c: Core, size: int): Core
    requires 0 < c.sizes.datagram <= size
  {
    var s := SizesRescaled(c.sizes, size);
    c.(sizes := s,
       window := if c.window == c.sizes.least then s.least
                 else if c.window == c.sizes.initial then s.initial
                 else Min(s.most, Max(c.window, s.least)),
       recovery := c.recovery.(window := Min(s.most, Max(c.recovery.window, s.least))))
  }

  // ---- The pacing rate handed to the pacer ----

  function EffectivePacingRate(c: Core, rttMin: nat): int
    requires 0 <= c.rtt.min
  {
    if c.pacing.rate == 0 then Scale(c.config.highGain, BandwidthFromDelta(c.sizes.initial, MinRtt(c, rttMin)))
    else c.pacing.rate
  }

  function PacerBandwidth(c: Core, rttMin: nat): (bps: nat)
    requires 0 <= c.rtt.min
    ensures MIN_BPS <= bps
  {
    Max(EffectivePacingRate(c, rttMin) / 8, MIN_BPS)
  }

  // ---- The whole sender ----

  datatype System = System(core: Core, filter: Estimates<int>, sampler: Sampler, pacer: Bucket)

  datatype Event = Event(priorInFlight: int, time: int, acked: seq<AckedPacket>, lost: seq<LostPacket>, rttMin: nat, random: nat)

  function NewSystem(config: Config, datagram: int, maxPackets: int, packetBuffer: int, initialPacketSize: int): System {
    var sampler := NewSampler(BANDWIDTH_WINDOW);
    var avoiding := if config.overestimateAvoidance then WithOverestimateAvoidance(sampler) else sampler;
    System(NewCore(config, datagram, maxPackets, packetBuffer), Fresh(BANDWIDTH_WINDOW, 0),
           avoiding.(heights := avoiding.heights.(reduceOnIncrease := config.reduceExtraAcked)),
           Bucket(MAX_BURST_PACKETS * initialPacketSize, initialPacketSize, 0))
  }

  function AckedBytes(acked: seq<AckedPacket>): int {
    if acked == [] then 0 else AckedBytes(acked[..|acked| - 1]) + acked[|acked| - 1].bytesAcked
  }

  function LostBytes(lost: seq<LostPacket>): int {
    if lost == [] then 0 else LostBytes(lost[..|lost| - 1]) + lost[|lost| - 1].bytesLost
  }

  function LastAcked(e: Event): Option<int> {
    if e.acked == [] then None else Some(e.acked[|e.acked| - 1].packetNumber)
  }

  function LeastUnacked(e: Event): int
    requires e.acked != [] || e.lost != []
  {
    if e.acked != [] then e.acked[|e.acked| - 1].packetNumber - 2 else e.lost[|e.lost| - 1].packetNumber + 1
  }

  // The round the sampler and the filters are told.
  function RoundOf(c: Core, e: Event): int {
    if LastAcked(e).Some? && StartsRound(c, LastAcked(e).value) then c.rounds.count + 1 else c.rounds.count
  }

  function SamplerNotified(s: System, e: Event): Sampler {
    if e.priorInFlight < Target(s.core, s.filter.best.sample, e.rttMin, 1.0) then AfterAppLimited(s.sampler) else s.sampler
  }

  function SamplerFed(s: System, e: Event): (Sampler, EventSample) {
    AfterCongestion(SamplerNotified(s, e),
                    Congestion(e.time, e.acked, e.lost, s.filter.best.sample, INF_BANDWIDTH, RoundOf(s.core, e)))
  }

  function FilterFed(s: System, e: Event): Estimates<int> {
    var (sampler, sample) := SamplerFed(s, e);
    if sampler.totalBytesAcked != s.sampler.totalBytesAcked
       && (!sample.isAppLimited || sample.maxBandwidth > s.filter.best.sample)
    then Updated(MaxFilter, 0, s.filter, Entry(sample.maxBandwidth, RoundOf(s.core, e)))
    else s.filter
  }

  function FactsOf(s: System, e: Event): Facts {
    var (sampler, sample) := SamplerFed(s, e);
    Facts(e.time, e.priorInFlight, e.priorInFlight - AckedBytes(e.acked) - LostBytes(e.lost), LastAcked(e), e.lost != [],
          e.rttMin, e.random, FilterFed(s, e).best.sample, sample.lastPacketSendState, sample.rtt,
          sampler.totalBytesAcked - s.sampler.totalBytesAcked, sampler.totalBytesLost - s.sampler.totalBytesLost,
          sample.extraAcked, sampler.totalBytesAcked)
  }

  // The bandwidth growth check may restart the ack heights, and PROBE_RTT keeps the sampler app-limited.
  predicate ExpiresHeights(c: Core, f: Facts) {
    ChecksGrowth(Cycled(c, f).growth, IsRoundStart(c, f)) && Grows(Cycled(c, f).growth, f.bandwidth) && c.config.expireAckAggregationInStartup
  }

  predicate ProbesRtt(c: Core, f: Facts) { Moved(c, f).gains.mode == ProbeRtt }

  function SamplerSettled(s: System, e: Event): Sampler {
    var f, fed := FactsOf(s, e), SamplerFed(s, e).0;
    var checked := if ExpiresHeights(s.core, f) then AfterHeightReset(fed, 0, RoundOf(s.core, e)) else fed;
    if ProbesRtt(s.core, f) then AfterAppLimited(checked) else checked
  }

  predicate CanHandle(s: System, e: Event) {
    (e.acked != [] || e.lost != []) && CanPace(Modelled(s.core, FactsOf(s, e)), FactsOf(s, e))
  }

  function AfterEvent(s: System, e: Event): System
    requires CanHandle(s, e)
  {
    var settled := SamplerSettled(s, e);
    System(AfterFacts(s.core, FactsOf(s, e), settled.heights.filter.best.sample.extraAcked), FilterFed(s, e),
           AfterPruned(settled, LeastUnacked(e)), s.pacer)
  }

  datatype Sending = Sending(time: int, bytesInFlight: int, packetNumber: int, bytes: int, retransmittable: bool, rttMin: nat)

  function AfterSending(delay: nat, s: System, p: Sending): System
    requires s.pacer.Valid() && 0 <= s.core.rtt.min
  {
    System(AfterSend(s.core, p.packetNumber, p.bytesInFlight), s.filter,
           AfterSent(s.sampler, p.time, p.packetNumber, p.bytes, p.bytesInFlight, p.retransmittable),
           Pacers.AfterSend(delay, s.pacer, PacerBandwidth(s.core, p.rttMin), p.time, p.bytes))
  }

  function AfterResizing(s: System, size: int): System
    requires 0 < s.core.sizes.datagram <= size
  {
    System(Resized(s.core, size), s.filter, s.sampler, s.pacer.(datagram := size))
  }
}
