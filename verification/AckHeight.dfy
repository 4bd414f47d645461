// The ack-aggregation tracker of bbr/bandwidth_sampler.go: how far acknowledgements run ahead of the
// bandwidth estimate, epoch by epoch, with the largest heights kept in a windowed filter.
module AckHeights {
  import opened Options
  import opened Rates
  import opened WindowedFilters

  // A recorded height. round is only ever set by Reset.
  datatype ExtraAcked = ExtraAcked(extraAcked: int, bytesAcked: int, timeDelta: int, round: int)

  const NO_EXTRA := ExtraAcked(0, 0, 0, 0)

  function MaxExtraAcked(a: ExtraAcked, b: ExtraAcked): int {
    if a.extraAcked > b.extraAcked then 1 else if a.extraAcked < b.extraAcked then -1 else 0
  }

  lemma MaxExtraAckedRanks()
    ensures Ranks(MaxExtraAcked)
  {
  }

  datatype Heights = Heights(
    filter: Estimates<ExtraAcked>,
    epochStart: int,
    epochBytes: int,
    lastSentBeforeEpoch: int,
    epochs: nat,
    threshold: real,
    newEpochAfterRound: bool,
    reduceOnIncrease: bool
  ) {
    function StartEpoch(ack: AckEvent): Heights {
      this.(epochStart := ack.time, epochBytes := ack.bytes, lastSentBeforeEpoch := ack.lastSent, epochs := epochs + 1)
    }
  }

  datatype AckEvent = AckEvent(bandwidth: int, isNewMax: bool, round: int, lastSent: int, lastAcked: int, time: int, bytes: int)

  function NewHeights(window: nat): Heights {
    Heights(Fresh(window, NO_EXTRA), 0, 0, INVALID_PACKET, 0, 1.0, false, false)
  }

  // A recorded event measured against a new bandwidth; None once it is no longer ahead of it.
  function Remeasured(e: ExtraAcked, bandwidth: int): Option<ExtraAcked> {
    var expected := BytesFromBandwidthAndTimeDelta(bandwidth, e.timeDelta);
    if expected < e.bytesAcked then Some(e.(extraAcked := e.bytesAcked - expected)) else None
  }

  function Refed(f: Estimates<ExtraAcked>, e: Option<ExtraAcked>): Estimates<ExtraAcked> {
    if e.None? then f else Updated(MaxExtraAcked, NO_EXTRA, f, Entry(e.value, e.value.round))
  }

  // On a new maximum bandwidth the three estimates are cleared and fed again.
  function Reduced(f: Estimates<ExtraAcked>, bandwidth: int): Estimates<ExtraAcked> {
    Refed(Refed(Refed(Fresh(f.window, NO_EXTRA), Remeasured(f.best.sample, bandwidth)),
                Remeasured(f.second.sample, bandwidth)), Remeasured(f.third.sample, bandwidth))
  }

  predicate ForcesEpoch(h: Heights, ack: AckEvent) {
    h.newEpochAfterRound && h.lastSentBeforeEpoch != INVALID_PACKET && ack.lastAcked != INVALID_PACKET
    && ack.lastAcked > h.lastSentBeforeEpoch
  }

  predicate StartsEpoch(h: Heights, ack: AckEvent) {
    || h.epochStart == 0 || ForcesEpoch(h, ack)
    || h.epochBytes <= Scale(h.threshold, BytesFromBandwidthAndTimeDelta(ack.bandwidth, ack.time - h.epochStart))
  }

  // The height of this event and what it was measured from.
  function NewEvent(h: Heights, ack: AckEvent): ExtraAcked {
    var delta := ack.time - h.epochStart;
    var bytes := h.epochBytes + ack.bytes;
    ExtraAcked(bytes - BytesFromBandwidthAndTimeDelta(ack.bandwidth, delta), bytes, delta, 0)
  }

  function Observed(h: Heights, ack: AckEvent): (Heights, int) {
    var base := if h.reduceOnIncrease && ack.isNewMax then h.(filter := Reduced(h.filter, ack.bandwidth)) else h;
    if StartsEpoch(h, ack) then (base.StartEpoch(ack), 0)
    else
      var event := NewEvent(h, ack);
      (base.(epochBytes := event.bytesAcked,
             filter := Updated(MaxExtraAcked, NO_EXTRA, base.filter, Entry(event, ack.round))), event.extraAcked)
  }

  // The comment at the caller relies on this: an event reports zero extra bytes exactly when it starts an epoch.
  // Every event of a run meets the conditions (SystemHeights.HeightsAreAlwaysSound).
  lemma ZeroExtraMarksNewEpoch(h: Heights, ack: AckEvent)
    requires 1.0 <= h.threshold && 0 < ack.bytes && 0 <= ack.bandwidth && h.epochStart <= ack.time
    ensures 0 <= Observed(h, ack).1
    ensures Observed(h, ack).1 == 0 <==> StartsEpoch(h, ack)
    ensures Observed(h, ack).1 == 0 <==> Observed(h, ack).0.epochs == h.epochs + 1
    ensures Observed(h, ack).1 != 0 ==> Observed(h, ack).0.epochs == h.epochs
    ensures !StartsEpoch(h, ack) ==> 0 < NewEvent(h, ack).extraAcked
  {
    var delta := ack.time - h.epochStart;
    ExpectedIsNatural(ack.bandwidth, delta);
    ScaleGrows(h.threshold, BytesFromBandwidthAndTimeDelta(ack.bandwidth, delta));
    hide Scale, BytesFromBandwidthAndTimeDelta, Reduced, Updated, ForcesEpoch;
  }

  lemma ExpectedIsNatural(bandwidth: nat, delta: nat)
    ensures 0 <= BytesFromBandwidthAndTimeDelta(bandwidth, delta)
  {
    assert 0 <= bandwidth * delta;
  }

  // ---- The filter's part ----

  function RefedOps(e: Option<ExtraAcked>): seq<Op<ExtraAcked>> { if e.None? then [] else [Update(Entry(e.value, e.value.round))] }

  // What observing an event does to the filter, as operations of the filter.
  function HeightOps(h: Heights, ack: AckEvent): seq<Op<ExtraAcked>> {
    (if h.reduceOnIncrease && ack.isNewMax
     then [Clear] + RefedOps(Remeasured(h.filter.best.sample, ack.bandwidth)) + RefedOps(Remeasured(h.filter.second.sample, ack.bandwidth))
          + RefedOps(Remeasured(h.filter.third.sample, ack.bandwidth))
     else [])
    + if StartsEpoch(h, ack) then [] else [Update(Entry(NewEvent(h, ack), ack.round))]
  }

  // The filter that a stream of operations leaves behind.
  function Filtered(window: nat, ops: seq<Op<ExtraAcked>>): Estimates<ExtraAcked> { Run(MaxExtraAcked, NO_EXTRA, window, ops) }

  lemma RefedIsRun(window: nat, ops: seq<Op<ExtraAcked>>, e: Option<ExtraAcked>)
    ensures Filtered(window, ops + RefedOps(e)) == Refed(Filtered(window, ops), e)
  {
    if e.None? {
      assert ops + RefedOps(e) == ops;
    } else {
      RunExtends(MaxExtraAcked, NO_EXTRA, window, ops, RefedOps(e)[0]);
    }
  }

  lemma ObservingIsRun(window: nat, ops: seq<Op<ExtraAcked>>, h: Heights, ack: AckEvent)
    requires h.filter == Filtered(window, ops)
    ensures Observed(h, ack).0.filter == Filtered(window, ops + HeightOps(h, ack))
  {
    hide StartsEpoch, NewEvent, Remeasured, Updated, Run;
    WindowIsKept(MaxExtraAcked, NO_EXTRA, window, ops);
    var base := ops;
    if h.reduceOnIncrease && ack.isNewMax {
      var e1, e2, e3 := Remeasured(h.filter.best.sample, ack.bandwidth), Remeasured(h.filter.second.sample, ack.bandwidth),
                        Remeasured(h.filter.third.sample, ack.bandwidth);
      RunExtends(MaxExtraAcked, NO_EXTRA, window, ops, Clear);
      RefedIsRun(window, ops + [Clear], e1);
      RefedIsRun(window, ops + [Clear] + RefedOps(e1), e2);
      RefedIsRun(window, ops + [Clear] + RefedOps(e1) + RefedOps(e2), e3);
      base := ops + [Clear] + RefedOps(e1) + RefedOps(e2) + RefedOps(e3);
      assert ops + ([Clear] + RefedOps(e1) + RefedOps(e2) + RefedOps(e3)) == base;
    }
    if StartsEpoch(h, ack) {
      assert ops + HeightOps(h, ack) == base;
    } else {
      var newest := Update(Entry(NewEvent(h, ack), ack.round));
      RunExtends(MaxExtraAcked, NO_EXTRA, window, base, newest);
      assert ops + HeightOps(h, ack) == base + [newest];
    }
  }

  // ---- What the filter holds ----

  // What recorded events can look like: no round, or nothing measured.
  predicate Unstamped(e: ExtraAcked) { e.round == 0 || (e.bytesAcked == 0 && e.timeDelta == 0) }

  ghost predicate AllUnstamped(f: Estimates<ExtraAcked>) {
    Unstamped(f.best.sample) && Unstamped(f.second.sample) && Unstamped(f.third.sample)
  }

  lemma UpdatedStaysUnstamped(f: Estimates<ExtraAcked>, e: Entry<ExtraAcked>)
    requires AllUnstamped(f) && Unstamped(e.sample)
    ensures AllUnstamped(Updated(MaxExtraAcked, NO_EXTRA, f, e))
  {
  }

  // Every event the tracker ever feeds is unstamped. HeightRuns.HeightsAreUnstamped has it of every run.
  lemma HeightsStayUnstamped(h: Heights, ack: AckEvent)
    requires AllUnstamped(h.filter)
    ensures AllUnstamped(Observed(h, ack).0.filter)
  {
    var f0 := Fresh(h.filter.window, NO_EXTRA);
    var e1, e2, e3 := Remeasured(h.filter.best.sample, ack.bandwidth), Remeasured(h.filter.second.sample, ack.bandwidth),
                      Remeasured(h.filter.third.sample, ack.bandwidth);
    RefedStaysUnstamped(f0, e1);
    RefedStaysUnstamped(Refed(f0, e1), e2);
    RefedStaysUnstamped(Refed(Refed(f0, e1), e2), e3);
    var base := if h.reduceOnIncrease && ack.isNewMax then Reduced(h.filter, ack.bandwidth) else h.filter;
    UpdatedStaysUnstamped(base, Entry(NewEvent(h, ack), ack.round));
  }

  lemma RefedStaysUnstamped(f: Estimates<ExtraAcked>, e: Option<ExtraAcked>)
    requires AllUnstamped(f) && (e.Some? ==> Unstamped(e.value))
    ensures AllUnstamped(Refed(f, e))
  {
    if e.Some? { UpdatedStaysUnstamped(f, Entry(e.value, e.value.round)); }
  }

  ghost predicate AllNatural(f: Estimates<ExtraAcked>) {
    0 <= f.best.sample.extraAcked && 0 <= f.second.sample.extraAcked && 0 <= f.third.sample.extraAcked
  }

  lemma UpdatedStaysNatural(f: Estimates<ExtraAcked>, e: Entry<ExtraAcked>)
    requires AllNatural(f) && 0 <= e.sample.extraAcked
    ensures AllNatural(Updated(MaxExtraAcked, NO_EXTRA, f, e))
  {
  }

  lemma RefedStaysNatural(f: Estimates<ExtraAcked>, e: Option<ExtraAcked>)
    requires AllNatural(f) && (e.Some? ==> 0 <= e.value.extraAcked)
    ensures AllNatural(Refed(f, e))
  {
    if e.Some? { UpdatedStaysNatural(f, Entry(e.value, e.value.round)); }
  }

  lemma HeightsStayNatural(h: Heights, ack: AckEvent)
    requires AllNatural(h.filter)
    requires 1.0 <= h.threshold && 0 < ack.bytes && 0 <= ack.bandwidth && h.epochStart <= ack.time
    ensures AllNatural(Observed(h, ack).0.filter)
  {
    ZeroExtraMarksNewEpoch(h, ack);
    var f0 := Fresh(h.filter.window, NO_EXTRA);
    var e1, e2, e3 := Remeasured(h.filter.best.sample, ack.bandwidth), Remeasured(h.filter.second.sample, ack.bandwidth),
                      Remeasured(h.filter.third.sample, ack.bandwidth);
    RefedStaysNatural(f0, e1);
    RefedStaysNatural(Refed(f0, e1), e2);
    RefedStaysNatural(Refed(Refed(f0, e1), e2), e3);
    if !StartsEpoch(h, ack) {
      var base := if h.reduceOnIncrease && ack.isNewMax then Reduced(h.filter, ack.bandwidth) else h.filter;
      UpdatedStaysNatural(base, Entry(NewEvent(h, ack), ack.round));
    }
    hide Updated, Refed, StartsEpoch, NewEvent, AllNatural;
  }

  predicate AtRoundZero(f: Estimates<ExtraAcked>) { f.best.time == 0 && f.second.time == 0 && f.third.time == 0 }

  function Height(e: Option<ExtraAcked>): int { if e.None? then 0 else e.value.extraAcked }

  lemma RemeasuredIsAhead(e: ExtraAcked, bandwidth: int)
    requires Unstamped(e)
    ensures Remeasured(e, bandwidth).Some? ==> Remeasured(e, bandwidth).value.round == 0 && 0 < Remeasured(e, bandwidth).value.extraAcked
  {
    assert e.timeDelta == 0 ==> bandwidth * e.timeDelta == 0;
  }

  lemma RefedKeepsMaximum(f: Estimates<ExtraAcked>, e: Option<ExtraAcked>)
    requires AtRoundZero(f) && 0 <= f.best.sample.extraAcked
    requires e.Some? ==> e.value.round == 0 && 0 < e.value.extraAcked
    ensures AtRoundZero(Refed(f, e)) && Refed(f, e).window == f.window
    ensures Refed(f, e).best.sample.extraAcked == Max(f.best.sample.extraAcked, Height(e))
  {
  }

  lemma UpdateFromRoundZero(f: Estimates<ExtraAcked>, e: Entry<ExtraAcked>)
    requires AtRoundZero(f) && 0 <= f.best.sample.extraAcked && 0 < e.sample.extraAcked && 0 <= e.time < U64
    ensures Updated(MaxExtraAcked, NO_EXTRA, f, e).best.sample.extraAcked
            == if e.time <= f.window then Max(f.best.sample.extraAcked, e.sample.extraAcked) else e.sample.extraAcked
  {
    assert Age(e.time, 0) == e.time;
  }

  // What survives a bandwidth increase. The heights fed again carry round 0, so up to round |window| the best is
  // the largest of them and the new event; later the next update discards them all and keeps the new event alone.
  lemma IncreaseForgetsHeightsAfterWindow(h: Heights, ack: AckEvent)
    requires h.reduceOnIncrease && ack.isNewMax && !StartsEpoch(h, ack)
    requires AllUnstamped(h.filter) && 0 <= ack.round < U64
    requires 0 < NewEvent(h, ack).extraAcked
    ensures var old3 := Max(Height(Remeasured(h.filter.best.sample, ack.bandwidth)),
                            Max(Height(Remeasured(h.filter.second.sample, ack.bandwidth)),
                                Height(Remeasured(h.filter.third.sample, ack.bandwidth))));
            var event := NewEvent(h, ack).extraAcked;
            Observed(h, ack).0.filter.best.sample.extraAcked
            == if ack.round <= h.filter.window then Max(old3, event) else event
  {
    var e1, e2, e3 := Remeasured(h.filter.best.sample, ack.bandwidth), Remeasured(h.filter.second.sample, ack.bandwidth),
                      Remeasured(h.filter.third.sample, ack.bandwidth);
    var f0 := Fresh(h.filter.window, NO_EXTRA);
    RemeasuredIsAhead(h.filter.best.sample, ack.bandwidth);
    RemeasuredIsAhead(h.filter.second.sample, ack.bandwidth);
    RemeasuredIsAhead(h.filter.third.sample, ack.bandwidth);
    hide Remeasured, StartsEpoch, NewEvent, Refed;
    RefedKeepsMaximum(f0, e1);
    RefedKeepsMaximum(Refed(f0, e1), e2);
    RefedKeepsMaximum(Refed(Refed(f0, e1), e2), e3);
    var f := Reduced(h.filter, ack.bandwidth);
    assert AtRoundZero(f) && f.window == h.filter.window;
    UpdateFromRoundZero(f, Entry(NewEvent(h, ack), ack.round));
    hide Updated, AtRoundZero;
  }

  class MaxAckHeightTracker {
    const maxAckHeightFilter: WindowedFilter<ExtraAcked>
    var aggregationEpochStartTime: int
    var aggregationEpochBytes: int
    var lastSentPacketNumberBeforeEpoch: int
    var numAckAggregationEpochs: nat
    var ackAggregationBandwidthThreshold: real
    var startNewAggregationEpochAfterFullRound: bool
    var reduceExtraAckedOnBandwidthIncrease: bool

    ghost var Repr: set<object>

    ghost predicate Valid()
      reads this, Repr
      ensures Valid() ==> this in Repr
    {
      && this in Repr && maxAckHeightFilter in Repr && maxAckHeightFilter.Repr <= Repr && this !in maxAckHeightFilter.Repr
      && maxAckHeightFilter.Valid()
      && maxAckHeightFilter.comparator == MaxExtraAcked && maxAckHeightFilter.zero == NO_EXTRA
    }

    ghost function View(): Heights
      requires Valid()
      reads this, Repr
    {
      Heights(maxAckHeightFilter.View(), aggregationEpochStartTime, aggregationEpochBytes,
              lastSentPacketNumberBeforeEpoch, numAckAggregationEpochs, ackAggregationBandwidthThreshold,
              startNewAggregationEpochAfterFullRound, reduceExtraAckedOnBandwidthIncrease)
    }

    constructor (windowLength: nat)
      ensures Valid() && fresh(Repr)
      ensures View() == NewHeights(windowLength)
    {
      maxAckHeightFilter := new WindowedFilter(windowLength, MaxExtraAcked, NO_EXTRA);
      aggregationEpochStartTime, aggregationEpochBytes, numAckAggregationEpochs := 0, 0, 0;
      lastSentPacketNumberBeforeEpoch := INVALID_PACKET;
      ackAggregationBandwidthThreshold := 1.0;
      startNewAggregationEpochAfterFullRound, reduceExtraAckedOnBandwidthIncrease := false, false;
      new;
      Repr := {this} + maxAckHeightFilter.Repr;
    }

    function Get(): int
      requires Valid()
      reads this, Repr
      ensures Get() == View().filter.best.sample.extraAcked
    {
      maxAckHeightFilter.GetBest().extraAcked
    }

    method Update(bandwidthEstimate: int, isNewMaxBandwidth: bool, roundTripCount: int, lastSentPacketNumber: int,
                  lastAckedPacketNumber: int, ackTime: int, bytesAcked: int)
      returns (extraAcked: int)
      requires Valid()
      modifies Repr
      ensures Valid() && fresh(Repr - old(Repr))
      ensures (View(), extraAcked)
              == Observed(old(View()), AckEvent(bandwidthEstimate, isNewMaxBandwidth, roundTripCount,
                                                lastSentPacketNumber, lastAckedPacketNumber, ackTime, bytesAcked))
    {
      ghost var ack := AckEvent(bandwidthEstimate, isNewMaxBandwidth, roundTripCount,
                                lastSentPacketNumber, lastAckedPacketNumber, ackTime, bytesAcked);
      ghost var h := View();
      var forceNewEpoch := false;
      if reduceExtraAckedOnBandwidthIncrease && isNewMaxBandwidth {
        ReduceHeights(bandwidthEstimate);
      }
      ghost var base := View();
      if startNewAggregationEpochAfterFullRound
         && lastSentPacketNumberBeforeEpoch != INVALID_PACKET
         && lastAckedPacketNumber != INVALID_PACKET
         && lastAckedPacketNumber > lastSentPacketNumberBeforeEpoch {
        forceNewEpoch := true;
      }
      assert forceNewEpoch == ForcesEpoch(h, ack);
      if aggregationEpochStartTime == 0 || forceNewEpoch {
        StartEpoch(lastSentPacketNumber, ackTime, bytesAcked);
        return 0;
      }
      hide BytesFromBandwidthAndTimeDelta, Scale;
      var aggregationDelta := ackTime - aggregationEpochStartTime;
      var expectedBytesAcked := BytesFromBandwidthAndTimeDelta(bandwidthEstimate, aggregationDelta);
      if aggregationEpochBytes <= Scale(ackAggregationBandwidthThreshold, expectedBytesAcked) {
        StartEpoch(lastSentPacketNumber, ackTime, bytesAcked);
        return 0;
      }
      aggregationEpochBytes := aggregationEpochBytes + bytesAcked;
      extraAcked := aggregationEpochBytes - expectedBytesAcked;
      var newEvent := ExtraAcked(extraAcked, aggregationEpochBytes, aggregationDelta, 0);
      assert newEvent == NewEvent(h, ack);
      maxAckHeightFilter.Update(newEvent, roundTripCount);
    }

    method StartEpoch(lastSentPacketNumber: int, ackTime: int, bytesAcked: int)
      requires Valid()
      modifies this
      ensures Valid() && Repr == old(Repr)
      ensures View() == old(View()).(epochStart := ackTime, epochBytes := bytesAcked,
                                     lastSentBeforeEpoch := lastSentPacketNumber, epochs := old(View()).epochs + 1)
    {
      aggregationEpochBytes := bytesAcked;
      aggregationEpochStartTime := ackTime;
      lastSentPacketNumberBeforeEpoch := lastSentPacketNumber;
      numAckAggregationEpochs := numAckAggregationEpochs + 1;
    }

    // Saves, clears and feeds again the three estimates.
    method ReduceHeights(bandwidthEstimate: int)
      requires Valid()
      modifies Repr
      ensures Valid() && fresh(Repr - old(Repr))
      ensures View() == old(View()).(filter := Reduced(old(View()).filter, bandwidthEstimate))
    {
      var best, secondBest, thirdBest :=
        maxAckHeightFilter.GetBest(), maxAckHeightFilter.GetSecondBest(), maxAckHeightFilter.GetThirdBest();
      maxAckHeightFilter.Clear();
      Repr := Repr + maxAckHeightFilter.Repr;
      Reinsert(best, bandwidthEstimate);
      Reinsert(secondBest, bandwidthEstimate);
      Reinsert(thirdBest, bandwidthEstimate);
    }

    // The recalculation that follows a new maximum bandwidth, for one of the three estimates.
    method Reinsert(event: ExtraAcked, bandwidthEstimate: int)
      requires Valid()
      modifies maxAckHeightFilter.Repr
      ensures Valid()
      ensures View() == old(View()).(filter := Refed(old(View()).filter, Remeasured(event, bandwidthEstimate)))
    {
      var expectedBytesAcked := BytesFromBandwidthAndTimeDelta(bandwidthEstimate, event.timeDelta);
      if expectedBytesAcked < event.bytesAcked {
        maxAckHeightFilter.Update(event.(extraAcked := event.bytesAcked - expectedBytesAcked), event.round);
      }
    }

    method Reset(newHeight: int, newTime: int)
      requires Valid()
      modifies Repr
      ensures Valid() && Repr == old(Repr)
      ensures View() == old(View()).(filter := ResetTo(old(View()).filter, Entry(ExtraAcked(newHeight, 0, 0, newTime), newTime)))
    {
      maxAckHeightFilter.Reset(ExtraAcked(newHeight, 0, 0, newTime), newTime);
    }

    method SetAckAggregationBandwidthThreshold(threshold: real)
      requires Valid()
      modifies this`ackAggregationBandwidthThreshold
      ensures Valid() && View() == old(View()).(threshold := threshold)
    {
      ackAggregationBandwidthThreshold := threshold;
    }

    method SetReduceExtraAckedOnBandwidthIncrease(value: bool)
      requires Valid()
      modifies this`reduceExtraAckedOnBandwidthIncrease
      ensures Valid() && View() == old(View()).(reduceOnIncrease := value)
    {
      reduceExtraAckedOnBandwidthIncrease := value;
    }
  }
}
