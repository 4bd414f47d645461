// The bbrSender object of bbr/bbr_sender.go, proved against the state machine of the whole sender. The fields a
// profile sets once and never changes are the record config.
module Senders {
  import opened Options
  import opened Pacers
  import opened Rates
  import opened Samplers
  import opened SamplerStates
  import opened SenderStates
  import opened WindowedFilters

  class BbrSender {
    const config: Config
    const maxPacketBufferSize: int
    const sampler: BandwidthSampler
    const maxBandwidth: WindowedFilter<int>
    const pacer: Pacer
    var mode: Mode
    var roundTripCount: int
    var lastSentPacket: int
    var currentRoundTripEnd: int
    var numLossEventsInRound: int
    var bytesLostInRound: int
    var minRtt: int
    var minRttTimestamp: int
    var congestionWindow: int
    var initialCongestionWindow: int
    var maxCongestionWindow: int
    var minCongestionWindow: int
    var pacingRate: int
    var pacingGain: real
    var congestionWindowGain: real
    var cycleCurrentOffset: int
    var lastCycleStart: int
    var isAtFullBandwidth: bool
    var roundsWithoutBandwidthGain: int
    var bandwidthAtLastRound: int
    var exitingQuiescence: bool
    var exitProbeRttAt: int
    var probeRttRoundPassed: bool
    var lastSampleIsAppLimited: bool
    var hasNoAppLimitedSample: bool
    var recoveryState: RecoveryState
    var endRecoveryAt: int
    var recoveryWindow: int
    var detectOvershooting: bool
    var bytesLostWhileDetectingOvershooting: int
    var cwndToCalculateMinPacingRate: int
    var maxDatagramSize: int
    var bytesInFlight: int

    ghost var Parts: set<object>  // the memory of the three machines the sender drives

    ghost predicate Valid()
      reads this`Parts, Parts
      ensures Valid() ==> this !in Parts
    {
      && this !in Parts && pacer in Parts
      && sampler in Parts && sampler.Repr <= Parts
      && maxBandwidth in Parts && maxBandwidth.Repr <= Parts
      && pacer !in sampler.Repr + maxBandwidth.Repr
      && sampler.Repr !! maxBandwidth.Repr
      && sampler.Valid() && maxBandwidth.Valid()
      && maxBandwidth.comparator == MaxFilter && maxBandwidth.zero == 0
    }

    // The fields by group.
    function SizesNow(): Sizes
      reads this`maxDatagramSize, this`initialCongestionWindow, this`maxCongestionWindow,
            this`minCongestionWindow, this`cwndToCalculateMinPacingRate
    {
      Sizes(maxDatagramSize, initialCongestionWindow, maxCongestionWindow, minCongestionWindow, cwndToCalculateMinPacingRate)
    }

    function GainsNow(): Gains
      reads this`mode, this`pacingGain, this`congestionWindowGain, this`cycleCurrentOffset, this`lastCycleStart
    {
      Gains(mode, pacingGain, congestionWindowGain, cycleCurrentOffset, lastCycleStart)
    }

    function RoundsNow(): Rounds
      reads this`roundTripCount, this`currentRoundTripEnd, this`numLossEventsInRound, this`bytesLostInRound
    {
      Rounds(roundTripCount, currentRoundTripEnd, numLossEventsInRound, bytesLostInRound)
    }

    function RttNow(): Rtt
      reads this`minRtt, this`minRttTimestamp
    {
      Rtt(minRtt, minRttTimestamp)
    }

    function ProbeNow(): Probe
      reads this`exitProbeRttAt, this`probeRttRoundPassed, this`exitingQuiescence
    {
      Probe(exitProbeRttAt, probeRttRoundPassed, exitingQuiescence)
    }

    function GrowthNow(): Growth
      reads this`isAtFullBandwidth, this`roundsWithoutBandwidthGain, this`bandwidthAtLastRound,
            this`lastSampleIsAppLimited, this`hasNoAppLimitedSample
    {
      Growth(isAtFullBandwidth, roundsWithoutBandwidthGain, bandwidthAtLastRound, lastSampleIsAppLimited, hasNoAppLimitedSample)
    }

    function RecoveryNow(): Recovery
      reads this`recoveryState, this`endRecoveryAt, this`recoveryWindow
    {
      Recovery(recoveryState, endRecoveryAt, recoveryWindow)
    }

    function PacingNow(): Pacing
      reads this`pacingRate, this`detectOvershooting, this`bytesLostWhileDetectingOvershooting
    {
      Pacing(pacingRate, detectOvershooting, bytesLostWhileDetectingOvershooting)
    }

    function Core(): Core
      reads this
    {
      SenderStates.Core(config, maxPacketBufferSize, lastSentPacket, bytesInFlight, congestionWindow, SizesNow(), GainsNow(),
                        RoundsNow(), RttNow(), ProbeNow(), GrowthNow(), RecoveryNow(), PacingNow())
    }

    ghost function SamplerView(): Sampler
      requires Valid()
      reads this`Parts, Parts
    {
      sampler.View()
    }

    ghost function FilterView(): Estimates<int>
      requires Valid()
      reads this`Parts, Parts
    {
      maxBandwidth.View()
    }

    ghost function PacerView(): Bucket
      requires Valid()
      reads this`Parts, Parts
    {
      pacer.View()
    }

    ghost function View(): System
      requires Valid()
      reads this, Parts
    {
      System(Core(), FilterView(), SamplerView(), PacerView())
    }

    constructor (profile: Profile, initialMaxDatagramSize: int, maxPackets: int, maxPacketBufferSize: int,
                 minPacingDelay: nat, initialPacketSize: nat)
      ensures Valid() && fresh(Parts)
      ensures pacer.minPacingDelay == minPacingDelay
      ensures var s := NewSystem(ConfigFor(profile), initialMaxDatagramSize, maxPackets, maxPacketBufferSize, initialPacketSize);
              Core() == s.core && FilterView() == s.filter && SamplerView() == s.sampler && PacerView() == s.pacer
    {
      hide BandwidthSampler.Valid, BandwidthSampler.View, WindowedFilter.View, WindowedFilter.Valid, ConfigFor, NewSampler,
           WithOverestimateAvoidance, Fresh;
      var c := ConfigFor(profile);
      config, this.maxPacketBufferSize := c, maxPacketBufferSize;
      roundTripCount, lastSentPacket, currentRoundTripEnd := 0, INVALID_PACKET, INVALID_PACKET;
      numLossEventsInRound, bytesLostInRound, minRtt, minRttTimestamp := 0, 0, 0, 0;
      congestionWindow := INITIAL_WINDOW_PACKETS * initialMaxDatagramSize;
      initialCongestionWindow := INITIAL_WINDOW_PACKETS * initialMaxDatagramSize;
      maxCongestionWindow := maxPackets * initialMaxDatagramSize;
      minCongestionWindow := MIN_WINDOW_PACKETS * initialMaxDatagramSize;
      pacingRate, cycleCurrentOffset, lastCycleStart := 0, 0, 0;
      isAtFullBandwidth, roundsWithoutBandwidthGain, bandwidthAtLastRound := false, 0, 0;
      exitingQuiescence, exitProbeRttAt, probeRttRoundPassed := false, 0, false;
      lastSampleIsAppLimited, hasNoAppLimitedSample := false, false;
      recoveryState, endRecoveryAt, recoveryWindow := NotInRecovery, INVALID_PACKET, maxPackets * initialMaxDatagramSize;
      detectOvershooting, bytesLostWhileDetectingOvershooting := c.detectOvershooting, 0;
      cwndToCalculateMinPacingRate := INITIAL_WINDOW_PACKETS * initialMaxDatagramSize;
      maxDatagramSize, bytesInFlight := initialMaxDatagramSize, 0;
      mode, pacingGain, congestionWindowGain := Startup, c.highGain, c.highCwndGain;
      var bandwidthSampler, filter, bucket := NewParts(c, minPacingDelay, initialPacketSize);
      sampler, maxBandwidth, pacer := bandwidthSampler, filter, bucket;
      Parts := {bucket} + bandwidthSampler.Repr + filter.Repr;
      new;
      assert Core() == NewCore(c, initialMaxDatagramSize, maxPackets, maxPacketBufferSize);
    }

    // The three objects the sender owns.
    static method NewParts(c: Config, minPacingDelay: nat, initialPacketSize: nat)
      returns (s: BandwidthSampler, filter: WindowedFilter<int>, bucket: Pacer)
      ensures s.Valid() && fresh(s.Repr) && filter.Valid() && fresh(filter.Repr) && fresh(bucket)
      ensures s.Repr !! filter.Repr && bucket !in s.Repr + filter.Repr
      ensures var avoiding := if c.overestimateAvoidance then WithOverestimateAvoidance(NewSampler(BANDWIDTH_WINDOW))
                              else NewSampler(BANDWIDTH_WINDOW);
              s.View() == avoiding.(heights := avoiding.heights.(reduceOnIncrease := c.reduceExtraAcked))
      ensures filter.comparator == MaxFilter && filter.zero == 0 && filter.View() == Fresh(BANDWIDTH_WINDOW, 0)
      ensures bucket.minPacingDelay == minPacingDelay
      ensures bucket.View() == Bucket(MAX_BURST_PACKETS * initialPacketSize, initialPacketSize, 0)
    {
      hide BandwidthSampler.Valid, BandwidthSampler.View, WindowedFilter.View, WindowedFilter.Valid, NewSampler,
           WithOverestimateAvoidance, Fresh;
      s := SamplerFor(c);
      filter := new WindowedFilter(BANDWIDTH_WINDOW, MaxFilter, 0);
      bucket := new Pacer(minPacingDelay, initialPacketSize);
    }

    static method SamplerFor(c: Config) returns (s: BandwidthSampler)
      ensures s.Valid() && fresh(s.Repr)
      ensures var avoiding := if c.overestimateAvoidance then WithOverestimateAvoidance(NewSampler(BANDWIDTH_WINDOW))
                              else NewSampler(BANDWIDTH_WINDOW);
              s.View() == avoiding.(heights := avoiding.heights.(reduceOnIncrease := c.reduceExtraAcked))
    {
      hide BandwidthSampler.Valid, BandwidthSampler.View, NewSampler, WithOverestimateAvoidance;
      s := new BandwidthSampler(BANDWIDTH_WINDOW);
      if c.overestimateAvoidance {
        s.EnableOverestimateAvoidance();
      }
      s.SetReduceExtraAckedOnBandwidthIncrease(c.reduceExtraAcked);
    }

    // ---- Rounds and recovery ----

    method UpdateRoundTripCounter(lastAckedPacket: int) returns (isRoundStart: bool)
      modifies this`roundTripCount, this`currentRoundTripEnd
      ensures isRoundStart == StartsRound(old(Core()), lastAckedPacket)
      ensures RoundsNow() == RoundUpdated(old(Core()), lastAckedPacket).rounds
    {
      if currentRoundTripEnd == INVALID_PACKET || lastAckedPacket > currentRoundTripEnd {
        roundTripCount := roundTripCount + 1;
        currentRoundTripEnd := lastSentPacket;
        return true;
      }
      return false;
    }

    method UpdateRecoveryState(lastAckedPacket: int, hasLosses: bool, isRoundStart: bool)
      modifies this`recoveryState, this`endRecoveryAt, this`recoveryWindow, this`currentRoundTripEnd
      ensures var r := RecoveryUpdated(old(Core()), lastAckedPacket, hasLosses, isRoundStart);
              RecoveryNow() == r.recovery && RoundsNow() == r.rounds
    {
      if !isAtFullBandwidth {
        return;
      }
      if hasLosses {
        endRecoveryAt := lastSentPacket;
      }
      if recoveryState == NotInRecovery {
        if hasLosses {
          recoveryState := Conservation;
          recoveryWindow := 0;
          currentRoundTripEnd := lastSentPacket;
        }
      } else {
        if recoveryState == Conservation && isRoundStart {
          recoveryState := SlowGrowth;
        }
        if !hasLosses && lastAckedPacket > endRecoveryAt {
          recoveryState := NotInRecovery;
        }
      }
    }

    // ---- The model ----

    method NoteSample(f: Facts)
      modifies this`lastSampleIsAppLimited, this`hasNoAppLimitedSample
      ensures GrowthNow() == SampleNoted(old(GrowthNow()), f)
    {
      if f.sendState.isValid {
        lastSampleIsAppLimited := f.sendState.isAppLimited;
        hasNoAppLimitedSample := hasNoAppLimitedSample || !lastSampleIsAppLimited;
      }
    }

    method MaybeUpdateMinRtt(f: Facts) returns (minRttExpired: bool)
      modifies this`minRtt, this`minRttTimestamp
      ensures minRttExpired == MinRttExpires(old(RttNow()), f) && RttNow() == MinRttUpdated(old(RttNow()), f)
    {
      if f.rtt == INF_RTT {
        return false;
      }
      minRttExpired := minRtt != 0 && f.time > minRttTimestamp + MIN_RTT_EXPIRY;
      if minRttExpired || f.rtt < minRtt || minRtt == 0 {
        minRtt := f.rtt;
        minRttTimestamp := f.time;
      }
    }

    method CountLosses(f: Facts)
      modifies this`numLossEventsInRound, this`bytesLostInRound
      ensures RoundsNow() == LossesCounted(old(RoundsNow()), f)
    {
      if f.hasLosses {
        numLossEventsInRound := numLossEventsInRound + 1;
        bytesLostInRound := bytesLostInRound + f.bytesLost;
      }
    }

    function GetTargetCongestionWindow(f: Facts, gain: real): (window: int)
      reads this
      ensures window == Target(Core(), f.bandwidth, f.rttMin, gain)
    {
      var bdp := Bdp(MinRtt(Core(), f.rttMin), f.bandwidth);
      var window := Scale(gain, bdp);
      Max(if window == 0 then Scale(gain, initialCongestionWindow) else window, minCongestionWindow)
    }

    method UpdateGainCyclePhase(f: Facts)
      modifies this`cycleCurrentOffset, this`lastCycleStart, this`pacingGain
      ensures GainsNow() == GainCycled(old(Core()), f)
    {
      if mode != ProbeBw {
        return;
      }
      var shouldAdvanceGainCycling := f.time > lastCycleStart + MinRtt(Core(), f.rttMin);
      if pacingGain > 1.0 && !f.hasLosses && f.priorInFlight < GetTargetCongestionWindow(f, pacingGain) {
        shouldAdvanceGainCycling := false;
      }
      var target := GetTargetCongestionWindow(f, 1.0);
      if pacingGain < 1.0 && bytesInFlight <= target {
        shouldAdvanceGainCycling := true;
      }
      assert shouldAdvanceGainCycling == AdvancesCycle(Core(), f);
      hide Target, AdvancesCycle;
      if shouldAdvanceGainCycling {
        cycleCurrentOffset := (cycleCurrentOffset + 1) % GAIN_CYCLE_LENGTH;
        lastCycleStart := f.time;
        if config.drainToTarget && pacingGain < 1.0 && CycleGain(cycleCurrentOffset) == 1.0 && bytesInFlight > target {
          return;
        }
        pacingGain := CycleGain(cycleCurrentOffset);
      }
    }

    function ShouldExitStartupDueToLoss(f: Facts): bool
      reads this
      ensures ShouldExitStartupDueToLoss(f) <==> LosesTooMuch(Core().rounds, f)
    {
      if numLossEventsInRound < STARTUP_FULL_LOSS_COUNT || !f.sendState.isValid then false
      else if f.sendState.bytesInFlight > 0 && bytesLostInRound > 0
      then bytesLostInRound > Scale(LOSS_THRESHOLD, f.sendState.bytesInFlight)
      else false
    }

    // Whether the bandwidth grew in a profile that then expires the old ack heights.
    method CheckIfFullBandwidthReached(f: Facts, isRoundStart: bool) returns (expireHeights: bool)
      modifies this`bandwidthAtLastRound, this`roundsWithoutBandwidthGain, this`isAtFullBandwidth
      ensures GrowthNow() == FullBandwidthChecked(old(Core()), f, isRoundStart)
      ensures expireHeights == (ChecksGrowth(old(Core()).growth, isRoundStart) && Grows(old(Core()).growth, f.bandwidth)
                                && config.expireAckAggregationInStartup)
    {
      if !isRoundStart || isAtFullBandwidth || lastSampleIsAppLimited {
        return false;
      }
      var target := Scale(STARTUP_GROWTH_TARGET, bandwidthAtLastRound);
      if f.bandwidth >= target {
        bandwidthAtLastRound := f.bandwidth;
        roundsWithoutBandwidthGain := 0;
        return config.expireAckAggregationInStartup;
      }
      roundsWithoutBandwidthGain := roundsWithoutBandwidthGain + 1;
      if roundsWithoutBandwidthGain >= config.numStartupRtts || ShouldExitStartupDueToLoss(f) {
        isAtFullBandwidth := true;
      }
      return false;
    }

    // ---- Modes ----

    method EnterStartupMode()
      modifies this`mode, this`pacingGain, this`congestionWindowGain
      ensures GainsNow() == EnteredStartup(old(GainsNow()), config)
    {
      mode, pacingGain, congestionWindowGain := Startup, config.highGain, config.highCwndGain;
    }

    method EnterProbeBandwidthMode(f: Facts)
      modifies this`mode, this`pacingGain, this`congestionWindowGain, this`cycleCurrentOffset, this`lastCycleStart
      ensures GainsNow() == EnteredProbeBw(config, f)
    {
      var offset := f.random % (GAIN_CYCLE_LENGTH - 1);
      if offset >= 1 {
        offset := offset + 1;
      }
      mode, congestionWindowGain, cycleCurrentOffset, lastCycleStart, pacingGain :=
        ProbeBw, config.cwndGainConstant, offset, f.time, CycleGain(offset);
    }

    method MaybeExitStartupOrDrain(f: Facts)
      modifies this`mode, this`pacingGain, this`congestionWindowGain, this`cycleCurrentOffset, this`lastCycleStart
      ensures GainsNow() == StartupOrDrainLeft(old(Core()), f)
    {
      hide Target, EnteredProbeBw;
      ghost var c := Core();
      if mode == Startup && isAtFullBandwidth {
        mode, pacingGain, congestionWindowGain := Drain, config.drainGain, config.highCwndGain;
      }
      assert Core() == c.(gains := GainsNow());
      TargetIgnoresGains(c, GainsNow(), f.bandwidth, f.rttMin, 1.0);
      var target := GetTargetCongestionWindow(f, 1.0);
      if mode == Drain && bytesInFlight <= target {
        EnterProbeBandwidthMode(f);
      }
    }

    // The first half of maybeEnterOrExitProbeRtt.
    method MaybeEnterProbeRtt(minRttExpired: bool)
      modifies this`mode, this`pacingGain, this`exitProbeRttAt
      ensures var c := old(Core());
              if EntersProbeRtt(c, c.gains.mode, minRttExpired)
              then GainsNow() == c.gains.(mode := ProbeRtt, pacing := 1.0) && ProbeNow() == c.probe.(exitAt := 0)
              else GainsNow() == c.gains && ProbeNow() == c.probe
    {
      if minRttExpired && !exitingQuiescence && mode != ProbeRtt {
        mode, pacingGain, exitProbeRttAt := ProbeRtt, 1.0, 0;
      }
    }

    // The second half of maybeEnterOrExitProbeRtt.
    method MaybeExitProbeRtt(f: Facts, isRoundStart: bool)
      modifies this`mode, this`pacingGain, this`congestionWindowGain, this`cycleCurrentOffset, this`lastCycleStart,
               this`exitProbeRttAt, this`probeRttRoundPassed, this`minRttTimestamp, this`exitingQuiescence
      ensures var c := old(Core());
              var leaves := LeavesProbeRtt(c, f, isRoundStart);
              && ProbeNow() == ProbeServed(c, f, isRoundStart).(exitingQuiescence := false)
              && RttNow() == (if leaves then c.rtt.(timestamp := f.time) else c.rtt)
              && GainsNow() == (if !leaves then c.gains
                                else if !c.growth.full then EnteredStartup(c.gains, c.config)
                                else EnteredProbeBw(c.config, f))
    {
      hide EnteredStartup, EnteredProbeBw;
      if mode == ProbeRtt {
        if exitProbeRttAt == 0 {
          if bytesInFlight < minCongestionWindow + maxPacketBufferSize {
            exitProbeRttAt := f.time + PROBE_RTT_TIME;
            probeRttRoundPassed := false;
          }
        } else {
          if isRoundStart {
            probeRttRoundPassed := true;
          }
          if f.time - exitProbeRttAt >= 0 && probeRttRoundPassed {
            minRttTimestamp := f.time;
            if !isAtFullBandwidth {
              EnterStartupMode();
            } else {
              EnterProbeBandwidthMode(f);
            }
          }
        }
      }
      exitingQuiescence := false;
    }

    // ---- Rates and windows ----

    // Returns false where the source divides by a minimum RTT of zero.
    method CalculatePacingRate(f: Facts) returns (ok: bool)
      modifies this`pacingRate, this`detectOvershooting, this`bytesLostWhileDetectingOvershooting
      ensures ok == CanPace(old(Core()), f)
      ensures ok ==> PacingNow() == PacingUpdated(old(Core()), f)
    {
      hide BandwidthFromDelta;
      ghost var c := Core();
      ok := true;
      if f.bandwidth == 0 {
        return;
      }
      var targetRate := Scale(pacingGain, f.bandwidth);
      hide Scale;
      if isAtFullBandwidth {
        pacingRate := targetRate;
        return;
      }
      if pacingRate == 0 && f.rttMin != 0 {
        pacingRate := BandwidthFromDelta(initialCongestionWindow, f.rttMin);
        return;
      }
      if detectOvershooting {
        bytesLostWhileDetectingOvershooting := bytesLostWhileDetectingOvershooting + f.bytesLost;
        if pacingRate > targetRate && bytesLostWhileDetectingOvershooting > 0 {
          if hasNoAppLimitedSample
             || bytesLostWhileDetectingOvershooting * config.bytesLostMultiplier > initialCongestionWindow {
            assert Overshoots(c, f);
            if f.rttMin == 0 {
              return false;
            }
            pacingRate := Max(targetRate, BandwidthFromDelta(cwndToCalculateMinPacingRate, f.rttMin));
            bytesLostWhileDetectingOvershooting := 0;
            detectOvershooting := false;
          }
        }
      }
      pacingRate := Max(pacingRate, targetRate);
    }

    method CalculateCongestionWindow(f: Facts, maxAckHeight: int)
      modifies this`congestionWindow
      ensures congestionWindow == WindowUpdated(old(Core()), f, maxAckHeight)
    {
      if mode == ProbeRtt {
        return;
      }
      var targetWindow := GetTargetCongestionWindow(f, congestionWindowGain);
      assert targetWindow == Target(old(Core()), f.bandwidth, f.rttMin, old(congestionWindowGain));
      hide Target;
      if isAtFullBandwidth {
        targetWindow := targetWindow + maxAckHeight;
      } else if config.ackAggregationInStartup {
        targetWindow := targetWindow + f.extraAcked;
      }
      var window := congestionWindow;
      if isAtFullBandwidth {
        window := Min(targetWindow, window + f.bytesAcked);
      } else if window < targetWindow || f.totalAcked < initialCongestionWindow {
        window := window + f.bytesAcked;
      }
      window := Max(window, minCongestionWindow);
      congestionWindow := Min(window, maxCongestionWindow);
    }

    method CalculateRecoveryWindow(f: Facts)
      modifies this`recoveryWindow
      ensures recoveryWindow == RecoveryWindowUpdated(old(Core()), f)
    {
      if recoveryState == NotInRecovery {
        return;
      }
      var recoveryFloor := GetTargetCongestionWindow(f, 1.0) / 2;
      assert recoveryFloor == RecoveryFloor(old(Core()), f);
      hide RecoveryFloor, Target;
      var window := recoveryWindow;
      if window == 0 {
        window := bytesInFlight + f.bytesAcked;
        window := Max(minCongestionWindow, window);
        recoveryWindow := Max(window, recoveryFloor);
        return;
      }
      if window >= f.bytesLost {
        window := window - f.bytesLost;
      } else {
        window := maxDatagramSize;
      }
      if recoveryState == SlowGrowth {
        window := window + f.bytesAcked;
      }
      window := Max(window, bytesInFlight + f.bytesAcked);
      window := Max(minCongestionWindow, window);
      recoveryWindow := Max(window, recoveryFloor);
    }

    // ---- A congestion event ----

    // The largest packet acknowledged moves rounds and recovery on.
    method BeginEvent(inFlight: int, lastAcked: Option<int>, hasLosses: bool, ghost f: Facts) returns (isRoundStart: bool)
      requires f.inFlight == inFlight && f.lastAcked == lastAcked && f.hasLosses == hasLosses
      modifies this`bytesInFlight, this`roundTripCount, this`currentRoundTripEnd, this`recoveryState, this`endRecoveryAt,
               this`recoveryWindow
      ensures Core() == Begun(old(Core()), f) && isRoundStart == IsRoundStart(old(Core()), f)
    {
      hide SizesNow, GainsNow, RoundsNow, RttNow, ProbeNow, GrowthNow, RecoveryNow, PacingNow;
      ghost var c := Core();
      bytesInFlight := inFlight;
      ghost var b := c.(inFlight := inFlight);
      assert Core() == b;
      isRoundStart := false;
      if lastAcked.Some? {
        isRoundStart := UpdateRoundTripCounter(lastAcked.value);
        assert Core() == RoundUpdated(b, lastAcked.value);
        UpdateRecoveryState(lastAcked.value, hasLosses, isRoundStart);
        hide RoundUpdated;
        assert Core() == RecoveryUpdated(RoundUpdated(b, lastAcked.value), lastAcked.value, hasLosses, isRoundStart);
      }
    }

    method UpdateModel(f: Facts, isRoundStart: bool, ghost c: Core) returns (minRttExpired: bool, expireHeights: bool)
      requires Core() == Begun(c, f) && isRoundStart == IsRoundStart(c, f)
      modifies this`lastSampleIsAppLimited, this`hasNoAppLimitedSample, this`minRtt, this`minRttTimestamp,
               this`numLossEventsInRound, this`bytesLostInRound, this`cycleCurrentOffset, this`lastCycleStart, this`pacingGain,
               this`bandwidthAtLastRound, this`roundsWithoutBandwidthGain, this`isAtFullBandwidth
      ensures Core() == Sampled(c, f)
      ensures minRttExpired == MinRttExpires(Begun(c, f).rtt, f) && expireHeights == ExpiresHeights(c, f)
    {
      hide SizesNow, GainsNow, RoundsNow, RttNow, ProbeNow, GrowthNow, RecoveryNow, PacingNow;
      hide Begun, SampleNoted, MinRttUpdated, LossesCounted, GainCycled, FullBandwidthChecked, MinRttExpires, ChecksGrowth, Grows;
      NoteSample(f);
      minRttExpired := MaybeUpdateMinRtt(f);
      CountLosses(f);
      assert Core() == Measured(c, f);
      hide Measured;
      UpdateGainCyclePhase(f);
      assert Core() == Cycled(c, f);
      hide Cycled;
      expireHeights := CheckIfFullBandwidthReached(f, isRoundStart);
      assert config == Begun(c, f).config && Begun(c, f).config == c.config by { BegunKeepsConfig(c, f); }
    }

    // Whether the sampler is to be kept app-limited, while in PROBE_RTT.
    method UpdateMode(f: Facts, isRoundStart: bool, minRttExpired: bool, ghost c: Core) returns (probing: bool)
      requires Core() == Sampled(c, f) && isRoundStart == IsRoundStart(c, f) && minRttExpired == MinRttExpires(c.rtt, f)
      modifies this`mode, this`pacingGain, this`congestionWindowGain, this`cycleCurrentOffset, this`lastCycleStart,
               this`exitProbeRttAt, this`probeRttRoundPassed, this`minRttTimestamp, this`exitingQuiescence
      ensures Core() == Modelled(c, f) && probing == ProbesRtt(c, f)
    {
      hide SizesNow, RoundsNow, RttNow, ProbeNow, GrowthNow, RecoveryNow, PacingNow;
      hide Sampled, StartupOrDrainLeft, EnteredStartup, EnteredProbeBw, LeavesProbeRtt, ProbeServed, MinRttExpires;
      MaybeExitStartupOrDrain(f);
      MaybeEnterProbeRtt(minRttExpired);
      assert Core() == Moved(c, f);
      hide Moved;
      probing := mode == ProbeRtt;
      MaybeExitProbeRtt(f, isRoundStart);
      assert Core() == Modelled(c, f);
    }

    method UpdateRates(f: Facts, isRoundStart: bool, maxAckHeight: int, ghost c: Core) returns (ok: bool)
      requires Core() == Modelled(c, f) && isRoundStart == IsRoundStart(c, f)
      modifies this`pacingRate, this`detectOvershooting, this`bytesLostWhileDetectingOvershooting, this`congestionWindow,
               this`recoveryWindow, this`numLossEventsInRound, this`bytesLostInRound
      ensures ok == CanPace(Modelled(c, f), f)
      ensures ok ==> Core() == AfterFacts(c, f, maxAckHeight)
    {
      hide Modelled, CanPace;
      ghost var m := Core();
      ok := CalculatePacingRate(f);
      if !ok {
        return;
      }
      assert Core() == m.(pacing := PacingUpdated(m, f));
      PacingIsNotRead(m, PacingNow(), f, maxAckHeight);
      CalculateCongestionWindow(f, maxAckHeight);
      hide PacingUpdated, WindowUpdated;
      ghost var w := Core();
      WindowIsNotRead(m, w, f);
      CalculateRecoveryWindow(f);
      hide RecoveryWindowUpdated;
      if isRoundStart {
        numLossEventsInRound, bytesLostInRound := 0, 0;
      }
    }

    method NotifyAppLimited(e: Event)
      requires Valid()
      modifies Parts
      ensures Valid() && Parts == old(Parts)
      ensures SamplerView() == SamplerNotified(old(View()), e) && FilterView() == old(FilterView()) && PacerView() == old(PacerView())
    {
      hide BandwidthSampler.Valid, BandwidthSampler.View, WindowedFilter.View, Target;
      if e.priorInFlight < Target(Core(), maxBandwidth.GetBest(), e.rttMin, 1.0) {
        sampler.OnAppLimited();
      }
    }

    method FeedSampler(c: Congestion) returns (sample: EventSample)
      requires Valid()
      modifies Parts, this`Parts
      ensures Valid() && fresh(Parts - old(Parts))
      ensures (SamplerView(), sample) == AfterCongestion(old(SamplerView()), c)
      ensures FilterView() == old(FilterView()) && PacerView() == old(PacerView())
    {
      hide BandwidthSampler.Valid, BandwidthSampler.View, WindowedFilter.View, AfterCongestion, WindowedFilter.Valid;
      sample := sampler.OnCongestionEvent(c);
      Parts := Parts + sampler.Repr;
    }

    // The event's packets go to the sampler, and what it reports to the bandwidth filter.
    method FeedBoth(e: Event, best: int, totalBytesAckedBefore: int, ghost s: System) returns (sample: EventSample)
      requires Valid() && SamplerView() == SamplerNotified(s, e) && FilterView() == s.filter && roundTripCount == RoundOf(s.core, e)
      requires best == s.filter.best.sample && totalBytesAckedBefore == s.sampler.totalBytesAcked
      modifies Parts, this`Parts
      ensures Valid() && fresh(Parts - old(Parts))
      ensures (SamplerView(), sample) == SamplerFed(s, e) && FilterView() == FilterFed(s, e)
      ensures PacerView() == old(PacerView())
    {
      hide Valid, SamplerView, FilterView, PacerView, SamplerNotified, AfterCongestion, Updated, RoundOf;
      sample := FeedSampler(Congestion(e.time, e.acked, e.lost, best, INF_BANDWIDTH, roundTripCount));
      assert (SamplerView(), sample) == SamplerFed(s, e);
      hide SamplerFed;
      var (totalBytesAcked, _) := Totals();
      if totalBytesAckedBefore != totalBytesAcked {
        if !sample.isAppLimited || sample.maxBandwidth > best {
          FeedFilter(sample.maxBandwidth, roundTripCount);
        }
      }
    }

    method FeedFilter(bandwidth: int, round: int)
      requires Valid()
      modifies Parts
      ensures Valid() && Parts == old(Parts)
      ensures FilterView() == Updated(MaxFilter, 0, old(FilterView()), Entry(bandwidth, round))
      ensures SamplerView() == old(SamplerView()) && PacerView() == old(PacerView())
    {
      hide BandwidthSampler.Valid, BandwidthSampler.View, Updated;
      maxBandwidth.Update(bandwidth, round);
    }

    lemma CountIsStored()
      ensures roundTripCount == Core().rounds.count
    {
    }

    function BandwidthEstimate(): (best: int)
      requires Valid()
      reads this`Parts, Parts
      ensures best == FilterView().best.sample
    {
      maxBandwidth.GetBest()
    }

    // The totals the sampler reports before and after the event.
    function Totals(): (totals: (int, int))
      requires Valid()
      reads this`Parts, Parts
      ensures totals == (SamplerView().totalBytesAcked, SamplerView().totalBytesLost)
    {
      (sampler.totalBytesAcked, sampler.totalBytesLost)
    }

    method SumInFlight(e: Event) returns (inFlight: int)
      ensures inFlight == e.priorInFlight - AckedBytes(e.acked) - LostBytes(e.lost)
    {
      inFlight := e.priorInFlight;
      for i := 0 to |e.acked|
        invariant inFlight == e.priorInFlight - AckedBytes(e.acked[..i])
      {
        assert e.acked[..i + 1][..i] == e.acked[..i];
        inFlight := inFlight - e.acked[i].bytesAcked;
      }
      assert e.acked[..|e.acked|] == e.acked;
      for i := 0 to |e.lost|
        invariant inFlight == e.priorInFlight - AckedBytes(e.acked) - LostBytes(e.lost[..i])
      {
        assert e.lost[..i + 1][..i] == e.lost[..i];
        inFlight := inFlight - e.lost[i].bytesLost;
      }
      assert e.lost[..|e.lost|] == e.lost;
    }

    // Everything up to the point where the event's facts are known.
    method Observe(e: Event) returns (f: Facts, isRoundStart: bool)
      requires Valid()
      modifies Parts, this`Parts, this`bytesInFlight, this`roundTripCount, this`currentRoundTripEnd, this`recoveryState,
               this`endRecoveryAt, this`recoveryWindow
      ensures Valid() && fresh(Parts - old(Parts))
      ensures f == FactsOf(old(View()), e) && isRoundStart == IsRoundStart(old(Core()), f)
      ensures Core() == Begun(old(Core()), f)
      ensures SamplerView() == SamplerFed(old(View()), e).0 && FilterView() == FilterFed(old(View()), e)
      ensures PacerView() == old(PacerView())
    {
      hide SizesNow, GainsNow, RoundsNow, RttNow, ProbeNow, GrowthNow, RecoveryNow, PacingNow;
      hide Valid, SamplerView, FilterView, PacerView, AckedBytes, LostBytes, SamplerNotified, AfterCongestion, Updated, IsRoundStart, RoundOf;
      ghost var s := View();
      var (totalBytesAckedBefore, totalBytesLostBefore) := Totals();
      var best := BandwidthEstimate();
      NotifyAppLimited(e);
      var inFlight := SumInFlight(e);
      var lastAcked := LastAcked(e);
      isRoundStart := BeginEvent(inFlight, lastAcked, e.lost != [], FactsOf(s, e));
      hide Begun;
      BegunCounts(s, e);
      CountIsStored();
      var sample := FeedBoth(e, best, totalBytesAckedBefore, s);
      hide SamplerFed, FilterFed;
      var (totalBytesAcked, totalBytesLost) := Totals();
      f := Facts(e.time, e.priorInFlight, inFlight, lastAcked, e.lost != [], e.rttMin, e.random, BandwidthEstimate(),
                 sample.lastPacketSendState, sample.rtt, totalBytesAcked - totalBytesAckedBefore,
                 totalBytesLost - totalBytesLostBefore, sample.extraAcked, totalBytesAcked);
    }

    // The calls the model makes back into the sampler.
    method SettleSampler(expireHeights: bool, probing: bool) returns (maxAckHeight: int)
      requires Valid()
      modifies Parts
      ensures Valid() && Parts == old(Parts)
      ensures var checked := if expireHeights then AfterHeightReset(old(SamplerView()), 0, roundTripCount) else old(SamplerView());
              SamplerView() == if probing then AfterAppLimited(checked) else checked
      ensures maxAckHeight == SamplerView().heights.filter.best.sample.extraAcked
      ensures FilterView() == old(FilterView()) && PacerView() == old(PacerView())
    {
      hide BandwidthSampler.Valid, BandwidthSampler.View, WindowedFilter.View, AfterHeightReset;
      if expireHeights {
        sampler.ResetMaxAckHeightTracker(0, roundTripCount);
      }
      if probing {
        sampler.OnAppLimited();
      }
      maxAckHeight := sampler.MaxAckHeight();
    }

    method PruneSampler(leastUnacked: int)
      requires Valid()
      modifies Parts
      ensures Valid() && Parts == old(Parts)
      ensures SamplerView() == AfterPruned(old(SamplerView()), leastUnacked)
      ensures FilterView() == old(FilterView()) && PacerView() == old(PacerView())
    {
      hide BandwidthSampler.Valid, BandwidthSampler.View, WindowedFilter.View;
      sampler.RemoveObsoletePackets(leastUnacked);
    }

    // The model, from the facts to the mode.
    method Remodel(f: Facts, isRoundStart: bool, ghost c: Core) returns (expireHeights: bool, probing: bool)
      requires Core() == Begun(c, f) && isRoundStart == IsRoundStart(c, f)
      modifies this`lastSampleIsAppLimited, this`hasNoAppLimitedSample, this`minRtt, this`minRttTimestamp,
               this`numLossEventsInRound, this`bytesLostInRound, this`bandwidthAtLastRound, this`roundsWithoutBandwidthGain,
               this`isAtFullBandwidth, this`mode, this`pacingGain, this`congestionWindowGain, this`cycleCurrentOffset,
               this`lastCycleStart, this`exitProbeRttAt, this`probeRttRoundPassed, this`exitingQuiescence
      ensures Core() == Modelled(c, f)
      ensures expireHeights == ExpiresHeights(c, f) && probing == ProbesRtt(c, f)
    {
      hide Core, Begun, IsRoundStart, Modelled, Sampled, ExpiresHeights, ProbesRtt, MinRttExpires;
      BegunKeepsConfig(c, f);
      var minRttExpired: bool;
      minRttExpired, expireHeights := UpdateModel(f, isRoundStart, c);
      probing := UpdateMode(f, isRoundStart, minRttExpired, c);
    }

    // The model's effects on the sampler, the rates and windows, and the cleaning up.
    // Returns false where the source panics.
    method Apply(e: Event, f: Facts, isRoundStart: bool, expireHeights: bool, probing: bool, ghost s: System) returns (ok: bool)
      requires Valid() && f == FactsOf(s, e)
      requires Core() == Modelled(s.core, f) && isRoundStart == IsRoundStart(s.core, f) && roundTripCount == RoundOf(s.core, e)
      requires expireHeights == ExpiresHeights(s.core, f) && probing == ProbesRtt(s.core, f)
      requires SamplerView() == SamplerFed(s, e).0 && FilterView() == FilterFed(s, e) && PacerView() == s.pacer
      modifies Parts, this`pacingRate, this`detectOvershooting, this`bytesLostWhileDetectingOvershooting,
               this`congestionWindow, this`recoveryWindow, this`numLossEventsInRound, this`bytesLostInRound
      ensures Valid() && Parts == old(Parts)
      ensures ok == CanHandle(s, e)
      ensures ok ==> View() == AfterEvent(s, e)
    {
      hide Valid, SamplerView, FilterView, PacerView, CanHandle, AfterEvent, SamplerSettled, Core, FactsOf, SamplerFed, FilterFed;
      hide IsRoundStart, CanPace, Modelled, ExpiresHeights, ProbesRtt, RoundOf, AfterFacts, AfterPruned, AfterHeightReset;
      SettledFrom(s, e, f, expireHeights, probing);
      HandledFrom(s, e, f);
      var maxAckHeight := SettleSampler(expireHeights, probing);
      ok := UpdateRates(f, isRoundStart, maxAckHeight, s.core);
      if !ok {
        return;
      }
      if |e.acked| == 0 && |e.lost| == 0 {
        return false;
      }
      EventFrom(s, e, f);
      PruneSampler(if |e.acked| != 0 then e.acked[|e.acked| - 1].packetNumber - 2 else e.lost[|e.lost| - 1].packetNumber + 1);
    }

    // Returns false exactly where the source panics: on an event that reports nothing, and on an overshoot without a
    // minimum RTT.
    method OnCongestionEventEx(e: Event) returns (ok: bool)
      requires Valid()
      modifies this, Parts
      ensures Valid() && fresh(Parts - old(Parts))
      ensures ok == CanHandle(old(View()), e)
      ensures ok ==> View() == AfterEvent(old(View()), e)
    {
      hide Valid, SamplerView, FilterView, PacerView, Core, CanHandle, AfterEvent, FactsOf, SamplerFed, FilterFed, Begun, IsRoundStart,
           Modelled, ExpiresHeights, ProbesRtt, RoundOf;
      ghost var s := View();
      var f, isRoundStart := Observe(e);
      var expireHeights, probing := Remodel(f, isRoundStart, s.core);
      ModelledCounts(s, e);
      CountIsStored();
      ok := Apply(e, f, isRoundStart, expireHeights, probing, s);
    }

    // ---- The rest of the interface ----

    method OnPacketSent(p: Sending)
      requires Valid() && PacerView().Valid() && 0 <= minRtt && 0 <= p.packetNumber
      modifies this, Parts
      ensures Valid() && fresh(Parts - old(Parts))
      ensures View() == AfterSending(pacer.minPacingDelay, old(View()), p)
    {
      hide Valid, SamplerView, FilterView, PacerView, Core, AfterSent, Pacers.AfterSend, SenderStates.AfterSend, PacerBandwidth;
      ghost var s := View();
      RttIsStored();
      SpendBudget(p);
      StoreSend(p);
      SampleSend(p);
    }

    method StoreSend(p: Sending)
      modifies this`lastSentPacket, this`bytesInFlight, this`exitingQuiescence
      ensures Core() == SenderStates.AfterSend(old(Core()), p.packetNumber, p.bytesInFlight)
    {
      hide SizesNow, GainsNow, RoundsNow, RttNow, GrowthNow, RecoveryNow, PacingNow;
      lastSentPacket, bytesInFlight := p.packetNumber, p.bytesInFlight;
      if p.bytesInFlight == 0 {
        exitingQuiescence := true;
      }
    }

    lemma RttIsStored()
      ensures minRtt == Core().rtt.min
    {
    }

    method SpendBudget(p: Sending)
      requires Valid() && PacerView().Valid() && 0 <= minRtt
      modifies Parts
      ensures Valid() && Parts == old(Parts)
      ensures PacerView() == Pacers.AfterSend(pacer.minPacingDelay, old(PacerView()), PacerBandwidth(Core(), p.rttMin), p.time, p.bytes)
      ensures SamplerView() == old(SamplerView()) && FilterView() == old(FilterView())
    {
      hide BandwidthSampler.Valid, BandwidthSampler.View, WindowedFilter.View, WindowedFilter.Valid, Pacers.AfterSend;
      hide PacerBandwidth;
      pacer.SentPacket(p.time, p.bytes, PacerBandwidth(Core(), p.rttMin));
    }

    method SampleSend(p: Sending)
      requires Valid() && 0 <= p.packetNumber
      modifies Parts, this`Parts
      ensures Valid() && fresh(Parts - old(Parts))
      ensures SamplerView() == AfterSent(old(SamplerView()), p.time, p.packetNumber, p.bytes, p.bytesInFlight, p.retransmittable)
      ensures FilterView() == old(FilterView()) && PacerView() == old(PacerView()) && Core() == old(Core())
    {
      hide SizesNow, GainsNow, RoundsNow, RttNow, ProbeNow, GrowthNow, RecoveryNow, PacingNow;
      hide BandwidthSampler.Valid, BandwidthSampler.View, WindowedFilter.View, WindowedFilter.Valid, AfterSent;
      sampler.OnPacketSent(p.time, p.packetNumber, p.bytes, p.bytesInFlight, p.retransmittable);
      Parts := Parts + sampler.Repr;
    }

    // A smaller datagram size panics.
    method SetMaxDatagramSize(size: int)
      requires Valid() && 0 < maxDatagramSize <= size
      modifies this`maxDatagramSize, this`initialCongestionWindow, this`maxCongestionWindow, this`minCongestionWindow,
               this`cwndToCalculateMinPacingRate, this`congestionWindow, this`recoveryWindow, Parts
      ensures Valid() && Parts == old(Parts)
      ensures View() == AfterResizing(old(View()), size)
    {
      hide BandwidthSampler.Valid, BandwidthSampler.View, WindowedFilter.View, WindowedFilter.Valid;
      ghost var s := View();
      RescaleWindows(size);
      assert Core() == Resized(s.core, size);
      hide Resized;
      pacer.SetMaxDatagramSize(size);
    }

    method RescaleWindows(size: int)
      requires 0 < maxDatagramSize <= size
      modifies this`maxDatagramSize, this`initialCongestionWindow, this`maxCongestionWindow, this`minCongestionWindow,
               this`cwndToCalculateMinPacingRate, this`congestionWindow, this`recoveryWindow
      ensures SizesNow() == Resized(old(Core()), size).sizes && congestionWindow == Resized(old(Core()), size).window
      ensures recoveryWindow == Resized(old(Core()), size).recovery.window
    {
      hide Rescale;
      var oldMinCongestionWindow, oldInitialCongestionWindow, oldSize := minCongestionWindow, initialCongestionWindow, maxDatagramSize;
      maxDatagramSize, initialCongestionWindow, maxCongestionWindow, minCongestionWindow, cwndToCalculateMinPacingRate :=
        size, Rescale(initialCongestionWindow, oldSize, size), Rescale(maxCongestionWindow, oldSize, size),
        MIN_WINDOW_PACKETS * size, Rescale(cwndToCalculateMinPacingRate, oldSize, size);
      if congestionWindow == oldMinCongestionWindow {
        congestionWindow := minCongestionWindow;
      } else if congestionWindow == oldInitialCongestionWindow {
        congestionWindow := initialCongestionWindow;
      } else {
        congestionWindow := Min(maxCongestionWindow, Max(congestionWindow, minCongestionWindow));
      }
      recoveryWindow := Min(maxCongestionWindow, Max(recoveryWindow, minCongestionWindow));
    }

    method GetCongestionWindow() returns (window: int)
      ensures window == CongestionWindow(Core())
    {
      if mode == ProbeRtt {
        return minCongestionWindow;
      }
      if recoveryState != NotInRecovery {
        return Min(congestionWindow, recoveryWindow);
      }
      return congestionWindow;
    }

    method CanSend(bytesInFlight: int) returns (can: bool)
      ensures can <==> bytesInFlight < CongestionWindow(Core())
    {
      var window := GetCongestionWindow();
      return bytesInFlight < window;
    }

    // Once the time returned has come, HasPacingBudget says yes at the same pacing rate, provided the sender's
    // datagrams are no larger than the pacer's.
    method TimeUntilSend(rttMin: nat) returns (time: int)
      requires Valid() && PacerView().Valid() && 0 <= minRtt
      ensures time == SendTime(pacer.minPacingDelay, PacerView(), PacerBandwidth(Core(), rttMin))
      ensures maxDatagramSize <= PacerView().datagram ==>
                forall now | PacerView().lastSent <= now && time <= now ::
                  maxDatagramSize <= BudgetAt(pacer.minPacingDelay, PacerView(), PacerBandwidth(Core(), rttMin), now)
    {
      hide PacerBandwidth, BudgetAt, SendTime;
      time := pacer.TimeUntilSend(PacerBandwidth(Core(), rttMin));
    }

    method HasPacingBudget(now: int, rttMin: nat) returns (has: bool)
      requires Valid() && PacerView().Valid() && 0 <= minRtt
      ensures has <==> maxDatagramSize <= BudgetAt(pacer.minPacingDelay, PacerView(), PacerBandwidth(Core(), rttMin), now)
    {
      hide PacerBandwidth, BudgetAt;
      var budget := pacer.Budget(now, PacerBandwidth(Core(), rttMin));
      return budget >= maxDatagramSize;
    }
  }

  // ---- What the stages do not read ----

  lemma BegunKeepsConfig(c: Core, f: Facts)
    ensures Begun(c, f).config == c.config && Begun(c, f).rtt == c.rtt
  {
    hide StartsRound;
  }

  lemma BegunCounts(s: System, e: Event)
    ensures Begun(s.core, FactsOf(s, e)).rounds.count == RoundOf(s.core, e)
  {
    hide SamplerFed, FilterFed;
    var f := FactsOf(s, e);
    assert f.lastAcked == LastAcked(e);
    CountBegun(s.core, f);
  }

  lemma CountBegun(c: Core, f: Facts)
    ensures Begun(c, f).rounds.count == c.rounds.count + if f.lastAcked.Some? && StartsRound(c, f.lastAcked.value) then 1 else 0
  {
  }

  lemma ModelledCounts(s: System, e: Event)
    ensures Modelled(s.core, FactsOf(s, e)).rounds.count == RoundOf(s.core, e)
  {
    BegunCounts(s, e);
    hide Begun, FactsOf, GainCycled, FullBandwidthChecked, RoundOf, StartupOrDrainLeft, ProbeServed, MinRttExpires;
  }

  lemma SettledFrom(s: System, e: Event, f: Facts, expireHeights: bool, probing: bool)
    requires f == FactsOf(s, e) && expireHeights == ExpiresHeights(s.core, f) && probing == ProbesRtt(s.core, f)
    ensures SamplerSettled(s, e)
            == var fed := SamplerFed(s, e).0;
               var checked := if expireHeights then AfterHeightReset(fed, 0, RoundOf(s.core, e)) else fed;
               if probing then AfterAppLimited(checked) else checked
  {
    hide FactsOf, SamplerFed, ExpiresHeights, ProbesRtt;
  }

  lemma EventFrom(s: System, e: Event, f: Facts)
    requires CanHandle(s, e) && f == FactsOf(s, e)
    ensures (e.acked != [] || e.lost != []) && CanPace(Modelled(s.core, f), f)
    ensures var settled := SamplerSettled(s, e);
            AfterEvent(s, e) == System(AfterFacts(s.core, f, settled.heights.filter.best.sample.extraAcked), FilterFed(s, e),
                                       AfterPruned(settled, LeastUnacked(e)), s.pacer)
  {
    hide FactsOf, SamplerSettled, FilterFed, AfterFacts, CanPace;
  }

  lemma HandledFrom(s: System, e: Event, f: Facts)
    requires f == FactsOf(s, e)
    ensures CanHandle(s, e) <==> (e.acked != [] || e.lost != []) && CanPace(Modelled(s.core, f), f)
  {
    hide FactsOf, Modelled, CanPace;
  }

  lemma TargetIgnoresGains(c: Core, g: Gains, bandwidth: int, rttMin: int, gain: real)
    ensures Target(c.(gains := g), bandwidth, rttMin, gain) == Target(c, bandwidth, rttMin, gain)
  {
    hide Scale, Bdp;
  }

  lemma PacingIsNotRead(c: Core, p: Pacing, f: Facts, maxAckHeight: int)
    ensures WindowUpdated(c.(pacing := p), f, maxAckHeight) == WindowUpdated(c, f, maxAckHeight)
    ensures RecoveryWindowUpdated(c.(pacing := p), f) == RecoveryWindowUpdated(c, f)
  {
    hide Scale, Bdp;
  }

  lemma WindowIsNotRead(c: Core, w: Core, f: Facts)
    requires w == c.(pacing := w.pacing, window := w.window)
    ensures RecoveryWindowUpdated(w, f) == RecoveryWindowUpdated(c, f)
  {
    hide Scale, Bdp;
  }
}
