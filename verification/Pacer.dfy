// The token-bucket pacer of common/pacer.go. Times and MinPacingDelay are in nanoseconds, bandwidth in bytes
// per second; a lastSent of 0 is the zero time of a pacer that has sent nothing.
module Pacers {
  import opened Options
  import opened Rates

  const MAX_BURST_PACKETS := 10
  const MAX_BURST_DELAY_MULTIPLIER := 4
  const OVERFLOW_BUDGET := 0x3FFF_FFFF_FFFF_FFFF

  datatype Bucket = Bucket(budget: int, datagram: int, lastSent: int) {
    predicate Valid() { 0 <= budget && 0 <= datagram && 0 <= lastSent }
  }

  // Division of the source, which truncates toward zero.
  function Quotient(x: int, y: int): int
    requires 0 < y
  {
    if x < 0 then -(-x / y) else x / y
  }

  function MaxBurst(delay: nat, bandwidth: nat, datagram: int): int {
    Max(MAX_BURST_DELAY_MULTIPLIER * delay * bandwidth / SECOND, MAX_BURST_PACKETS * datagram)
  }

  function BudgetAt(delay: nat, b: Bucket, bandwidth: nat, now: int): (budget: int)
    requires b.Valid()
    ensures 0 <= budget <= MaxBurst(delay, bandwidth, b.datagram)
  {
    if b.lastSent == 0 then MaxBurst(delay, bandwidth, b.datagram)
    else
      var budget := b.budget + Quotient(bandwidth * (now - b.lastSent), SECOND);
      Min(MaxBurst(delay, bandwidth, b.datagram), if budget < 0 then OVERFLOW_BUDGET else budget)
  }

  function AfterSend(delay: nat, b: Bucket, bandwidth: nat, time: int, size: int): Bucket
    requires b.Valid()
  {
    var budget := BudgetAt(delay, b, bandwidth, time);
    Bucket(if size > budget then 0 else budget - size, b.datagram, time)
  }

  function CeilingQuotient(x: nat, y: nat): (q: nat)
    requires 0 < y
    ensures q * y >= x && (0 < q ==> (q - 1) * y < x)
  {
    assert x == x / y * y + x % y;
    x / y + (if x % y > 0 then 1 else 0)
  }

  function SendTime(delay: nat, b: Bucket, bandwidth: nat): int
    requires b.Valid() && 0 < bandwidth
  {
    if b.datagram <= b.budget then 0
    else b.lastSent + Max(delay, CeilingQuotient(SECOND * (b.datagram - b.budget), bandwidth))
  }

  // ---- Conformance: what a run of sends can carry in any interval ----

  datatype Op = Send(time: int, size: nat, bandwidth: nat) | Resize(datagram: int)

  function Step(delay: nat, b: Bucket, op: Op): Bucket
    requires b.Valid()
  {
    match op
    case Send(time, size, bandwidth) => AfterSend(delay, b, bandwidth, time, size)
    case Resize(datagram) => b.(datagram := datagram)
  }

  // The clock never goes back, every send fits the budget, and neither the bandwidth nor the datagram size
  // exceeds the caps.
  predicate Fits(delay: nat, b: Bucket, op: Op, maxBandwidth: nat, maxDatagram: nat)
    requires b.Valid()
  {
    match op
    case Send(time, size, bandwidth) =>
      0 < time && b.lastSent <= time && bandwidth <= maxBandwidth && size <= BudgetAt(delay, b, bandwidth, time)
    case Resize(datagram) => 0 <= datagram <= maxDatagram
  }

  function Run(delay: nat, b: Bucket, ops: seq<Op>, maxBandwidth: nat, maxDatagram: nat): (r: Option<Bucket>)
    requires b.Valid()
    ensures r.Some? ==> r.value.Valid()
  {
    if ops == [] then Some(b)
    else
      var n := |ops| - 1;
      var before := Run(delay, b, ops[..n], maxBandwidth, maxDatagram);
      if before.Some? && Fits(delay, before.value, ops[n], maxBandwidth, maxDatagram)
      then Some(Step(delay, before.value, ops[n])) else None
  }

  // A run that keeps to its budget, from a bucket whose datagram size is within the cap.
  ghost predicate Conforms(delay: nat, b: Bucket, ops: seq<Op>, maxBandwidth: nat, maxDatagram: nat) {
    b.Valid() && b.datagram <= maxDatagram && Run(delay, b, ops, maxBandwidth, maxDatagram).Some?
  }

  function Bytes(ops: seq<Op>): nat {
    if ops == [] then 0
    else Bytes(ops[..|ops| - 1]) + (if ops[|ops| - 1].Send? then ops[|ops| - 1].size else 0)
  }

  lemma ProductGrows(m: nat, x: int, y: int)
    requires x <= y
    ensures m * x <= m * y
  {
  }

  lemma MaxBurstGrows(delay: nat, low: nat, high: nat, datagram: int, maxDatagram: int)
    requires low <= high && datagram <= maxDatagram
    ensures MaxBurst(delay, low, datagram) <= MaxBurst(delay, high, maxDatagram)
  {
    ProductGrows(MAX_BURST_DELAY_MULTIPLIER * delay, low, high);
  }

  // The refill between two sends is at most what the bandwidth cap allows, rounded down.
  lemma RefillIsCapped(delay: nat, b: Bucket, bandwidth: nat, maxBandwidth: nat, time: int)
    requires b.Valid() && 0 < b.lastSent <= time && bandwidth <= maxBandwidth
    ensures BudgetAt(delay, b, bandwidth, time) <= b.budget + maxBandwidth * (time - b.lastSent) / SECOND
  {
    var elapsed := time - b.lastSent;
    assert 0 <= bandwidth * elapsed <= maxBandwidth * elapsed;
  }

  lemma RefillsAdd(bandwidth: nat, t0: int, t1: int, t2: int)
    ensures bandwidth * (t1 - t0) / SECOND + bandwidth * (t2 - t1) / SECOND <= bandwidth * (t2 - t0) / SECOND
  {
    assert bandwidth * (t1 - t0) + bandwidth * (t2 - t1) == bandwidth * (t2 - t0);
  }

  // What is left in the bucket and what was sent since send j never exceed one burst plus the capped rate.
  lemma {:induction false} LedgerStaysBelow(delay: nat, b: Bucket, ops: seq<Op>, maxBandwidth: nat, maxDatagram: nat, j: nat)
    requires Conforms(delay, b, ops, maxBandwidth, maxDatagram)
    requires j < |ops| && ops[j].Send?
    ensures var r := Run(delay, b, ops, maxBandwidth, maxDatagram).value;
            && r.datagram <= maxDatagram && 0 < ops[j].time <= r.lastSent
            && r.budget + Bytes(ops[j..])
               <= MaxBurst(delay, maxBandwidth, maxDatagram) + maxBandwidth * (r.lastSent - ops[j].time) / SECOND
  {
    var n := |ops| - 1;
    var op := ops[n];
    var before := Run(delay, b, ops[..n], maxBandwidth, maxDatagram).value;
    assert ops[j..][..n - j] == ops[..n][j..];
    if j == n {
      assert ops[j..][..0] == [];
      DatagramIsCapped(delay, b, ops[..n], maxBandwidth, maxDatagram);
      MaxBurstGrows(delay, op.bandwidth, maxBandwidth, before.datagram, maxDatagram);
      assert maxBandwidth * 0 == 0;
    } else {
      LedgerStaysBelow(delay, b, ops[..n], maxBandwidth, maxDatagram, j);
      if op.Send? {
        RefillIsCapped(delay, before, op.bandwidth, maxBandwidth, op.time);
        RefillsAdd(maxBandwidth, ops[j].time, before.lastSent, op.time);
      }
    }
  }

  lemma {:induction false} DatagramIsCapped(delay: nat, b: Bucket, ops: seq<Op>, maxBandwidth: nat, maxDatagram: nat)
    requires Conforms(delay, b, ops, maxBandwidth, maxDatagram)
    ensures Run(delay, b, ops, maxBandwidth, maxDatagram).value.datagram <= maxDatagram
  {
    if ops != [] { DatagramIsCapped(delay, b, ops[..|ops| - 1], maxBandwidth, maxDatagram); }
  }

  lemma {:induction false} PrefixConforms(delay: nat, b: Bucket, ops: seq<Op>, maxBandwidth: nat, maxDatagram: nat, n: nat)
    requires Conforms(delay, b, ops, maxBandwidth, maxDatagram) && n <= |ops|
    ensures Conforms(delay, b, ops[..n], maxBandwidth, maxDatagram)
    decreases |ops|
  {
    if n < |ops| {
      PrefixConforms(delay, b, ops[..|ops| - 1], maxBandwidth, maxDatagram, n);
      assert ops[..|ops| - 1][..n] == ops[..n];
    } else {
      assert ops[..n] == ops;
    }
  }

  // In any interval between two sends of a run that keeps to its budget, the bytes sent, both ends included,
  // are at most one burst plus the capped rate times the elapsed time, rounded down.
  lemma TokenBucketConformance(delay: nat, b: Bucket, ops: seq<Op>, maxBandwidth: nat, maxDatagram: nat, j: nat, k: nat)
    requires Conforms(delay, b, ops, maxBandwidth, maxDatagram)
    requires j <= k < |ops| && ops[j].Send? && ops[k].Send?
    ensures Bytes(ops[j..k + 1])
            <= MaxBurst(delay, maxBandwidth, maxDatagram) + maxBandwidth * (ops[k].time - ops[j].time) / SECOND
  {
    PrefixConforms(delay, b, ops, maxBandwidth, maxDatagram, k + 1);
    LedgerStaysBelow(delay, b, ops[..k + 1], maxBandwidth, maxDatagram, j);
    assert ops[..k + 1][j..] == ops[j..k + 1];
  }

  // ---- Liveness of the deadline ----

  // Once the time that SendTime promised has come, the budget covers a datagram of the pacer's size.
  lemma DeadlineBringsBudget(delay: nat, b: Bucket, bandwidth: nat, now: int)
    requires b.Valid() && 0 < bandwidth
    requires b.lastSent <= now && SendTime(delay, b, bandwidth) <= now
    ensures b.datagram <= BudgetAt(delay, b, bandwidth, now)
  {
    assert b.datagram <= MaxBurst(delay, bandwidth, b.datagram);
    var elapsed := now - b.lastSent;
    if b.budget < b.datagram {
      var missing := b.datagram - b.budget;
      RefillCovers(CeilingQuotient(SECOND * missing, bandwidth), bandwidth, elapsed, missing);
    } else {
      RefillCovers(0, bandwidth, elapsed, 0);
    }
  }

  lemma RefillCovers(wait: nat, bandwidth: nat, elapsed: nat, missing: nat)
    requires wait <= elapsed && SECOND * missing <= wait * bandwidth
    ensures missing <= Quotient(bandwidth * elapsed, SECOND)
  {
    assert wait * bandwidth <= elapsed * bandwidth;
  }

  // A sender whose datagram size is senderSize never waits on a deadline that has already passed.
  ghost predicate NeverStuck(delay: nat, pacerSize: nat, senderSize: int) {
    forall b: Bucket, bandwidth: nat, now: int |
      && b.Valid() && b.datagram == pacerSize && 0 < bandwidth
      && b.lastSent <= now && SendTime(delay, b, bandwidth) <= now
      :: senderSize <= BudgetAt(delay, b, bandwidth, now)
  }

  lemma NeverStuckExactlyWhenSenderFitsPacer(delay: nat, pacerSize: nat, senderSize: int)
    ensures NeverStuck(delay, pacerSize, senderSize) <==> senderSize <= pacerSize
  {
    if senderSize <= pacerSize {
      forall b: Bucket, bandwidth: nat, now: int |
        && b.Valid() && b.datagram == pacerSize && 0 < bandwidth
        && b.lastSent <= now && SendTime(delay, b, bandwidth) <= now
        ensures senderSize <= BudgetAt(delay, b, bandwidth, now)
      {
        DeadlineBringsBudget(delay, b, bandwidth, now);
      }
    } else {
      // A bucket holding exactly one of the pacer's datagrams allows sending at once, yet not this much.
      var b := Bucket(pacerSize, pacerSize, 1);
      assert 1 * (1 - b.lastSent) == 0;
      assert SendTime(delay, b, 1) <= 1 && BudgetAt(delay, b, 1, 1) <= pacerSize;
    }
  }

  // ---- The class. The bandwidth callback becomes an argument. ----

  class Pacer {
    const minPacingDelay: nat
    var budgetAtLastSent: int
    var maxDatagramSize: int
    var lastSentTime: int

    function View(): Bucket
      reads this
    {
      Bucket(budgetAtLastSent, maxDatagramSize, lastSentTime)
    }

    constructor (minPacingDelay: nat, initialPacketSize: nat)
      ensures this.minPacingDelay == minPacingDelay
      ensures View() == Bucket(MAX_BURST_PACKETS * initialPacketSize, initialPacketSize, 0)
    {
      this.minPacingDelay := minPacingDelay;
      budgetAtLastSent := MAX_BURST_PACKETS * initialPacketSize;
      maxDatagramSize := initialPacketSize;
      lastSentTime := 0;
    }

    method SentPacket(sendTime: int, size: int, bandwidth: nat)
      requires View().Valid()
      modifies this
      ensures View() == AfterSend(minPacingDelay, old(View()), bandwidth, sendTime, size)
    {
      var budget := Budget(sendTime, bandwidth);
      if size > budget {
        budgetAtLastSent := 0;
      } else {
        budgetAtLastSent := budget - size;
      }
      lastSentTime := sendTime;
    }

    method Budget(now: int, bandwidth: nat) returns (budget: int)
      requires View().Valid()
      ensures budget == BudgetAt(minPacingDelay, View(), bandwidth, now)
      ensures 0 <= budget <= MaxBurst(minPacingDelay, bandwidth, maxDatagramSize)
    {
      if lastSentTime == 0 {
        return MaxBurst(minPacingDelay, bandwidth, maxDatagramSize);
      }
      budget := budgetAtLastSent + Quotient(bandwidth * (now - lastSentTime), SECOND);
      if budget < 0 {
        budget := OVERFLOW_BUDGET;
      }
      budget := Min(MaxBurst(minPacingDelay, bandwidth, maxDatagramSize), budget);
    }

    // A zero bandwidth is a division by zero in the source.
    method TimeUntilSend(bandwidth: nat) returns (time: int)
      requires View().Valid() && 0 < bandwidth
      ensures time == SendTime(minPacingDelay, View(), bandwidth)
      ensures forall now | lastSentTime <= now && time <= now ::
                maxDatagramSize <= BudgetAt(minPacingDelay, View(), bandwidth, now)
    {
      forall now | lastSentTime <= now && SendTime(minPacingDelay, View(), bandwidth) <= now
        ensures maxDatagramSize <= BudgetAt(minPacingDelay, View(), bandwidth, now)
      {
        DeadlineBringsBudget(minPacingDelay, View(), bandwidth, now);
      }
      if budgetAtLastSent >= maxDatagramSize {
        return 0;
      }
      var diff := SECOND * (maxDatagramSize - budgetAtLastSent);
      var d := diff / bandwidth;
      if diff % bandwidth > 0 {
        d := d + 1;
      }
      return lastSentTime + Max(minPacingDelay, d);
    }

    method SetMaxDatagramSize(size: int)
      modifies this
      ensures View() == old(View()).(datagram := size)
    {
      maxDatagramSize := size;
    }
  }
}
