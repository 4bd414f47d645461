// The other side of the pacer: it holds nothing back. The budget is exactly what the bandwidth has refilled, no send costs
// more than its bytes, and the promised time is the first at which there is a budget.
module PacerLimits {
  import opened Options
  import opened Pacers
  import opened Rates

  // n is x nanobytes in whole bytes.
  ghost predicate WholeBytes(n: int, x: int) { n * 1_000_000_000 <= x < (n + 1) * 1_000_000_000 }

  // A burst is ten datagrams, or what the bandwidth carries in four times the pacing delay if that is more.
  lemma BurstIs(delay: nat, bandwidth: nat, datagram: int) returns (carried: int)
    ensures WholeBytes(carried, 4 * delay * bandwidth)
    ensures MaxBurst(delay, bandwidth, datagram) == if carried < 10 * datagram then 10 * datagram else carried
  {
    carried := 4 * delay * bandwidth / SECOND;
  }

  lemma ProductIsNatural(x: nat, y: nat)
    ensures 0 <= x * y
  {
  }

  // The budget is a burst before the first send. Later it is what the last send left and what the bandwidth has refilled
  // since, up to a burst; a clock that went back takes from it instead, and once it took everything, a burst is there.
  lemma BudgetIs(delay: nat, b: Bucket, bandwidth: nat, now: int) returns (moved: nat)
    requires b.Valid()
    ensures WholeBytes(moved, bandwidth * if b.lastSent <= now then now - b.lastSent else b.lastSent - now)
    ensures var burst, budget := MaxBurst(delay, bandwidth, b.datagram), BudgetAt(delay, b, bandwidth, now);
            if b.lastSent == 0 then budget == burst
            else if b.lastSent <= now then budget == if b.budget + moved < burst then b.budget + moved else burst
            else if b.budget < moved then budget == if 0x3FFF_FFFF_FFFF_FFFF < burst then 0x3FFF_FFFF_FFFF_FFFF else burst
            else budget == if b.budget - moved < burst then b.budget - moved else burst
  {
    hide MaxBurst;
    if b.lastSent <= now {
      ProductIsNatural(bandwidth, now - b.lastSent);
      moved := bandwidth * (now - b.lastSent) / SECOND;
    } else {
      ProductIsNatural(bandwidth, b.lastSent - now);
      moved := bandwidth * (b.lastSent - now) / SECOND;
      assert bandwidth * (now - b.lastSent) == -(bandwidth * (b.lastSent - now));
      if bandwidth * (b.lastSent - now) == 0 { assert moved == 0; }
    }
  }

  // A send takes its bytes from the budget, or all of it.
  lemma SendTakesItsBytes(delay: nat, b: Bucket, bandwidth: nat, time: int, size: nat)
    requires b.Valid()
    ensures var budget, r := BudgetAt(delay, b, bandwidth, time), AfterSend(delay, b, bandwidth, time, size);
            r.budget + size == (if size < budget then budget else size) && r.lastSent == time && r.datagram == b.datagram
  {
    hide BudgetAt;
  }

  // ---- The ledger from below ----

  predicate OpAtLeast(op: Op, bandwidth: nat, datagram: nat) {
    match op case Send(_, _, b) => bandwidth <= b case Resize(d) => datagram <= d
  }

  // Every bandwidth and datagram size of the run is at least this much.
  predicate AllAtLeast(ops: seq<Op>, bandwidth: nat, datagram: nat) {
    forall i | 0 <= i < |ops| :: OpAtLeast(ops[i], bandwidth, datagram)
  }

  lemma RefillReaches(low: nat, bandwidth: nat, elapsed: nat)
    requires low <= bandwidth
    ensures low * elapsed / SECOND <= Quotient(bandwidth * elapsed, SECOND)
  {
    ProductIsNatural(low, elapsed);
    ProductGrows(elapsed, low, bandwidth);
    assert elapsed * low == low * elapsed && elapsed * bandwidth == bandwidth * elapsed;
    QuotientGrows(low * elapsed, bandwidth * elapsed);
  }

  lemma QuotientGrows(x: nat, y: int)
    requires x <= y
    ensures x / SECOND <= Quotient(y, SECOND)
  {
  }

  // What rounding down each of two refills loses, against rounding down once.
  lemma RefillsLoseLessThanAByte(low: nat, t0: int, t1: int, t2: int)
    ensures low * (t2 - t0) / SECOND <= low * (t1 - t0) / SECOND + low * (t2 - t1) / SECOND + 1
  {
    assert low * (t1 - t0) + low * (t2 - t1) == low * (t2 - t0);
    QuotientsAdd(low * (t1 - t0), low * (t2 - t1));
  }

  lemma QuotientsAdd(x: int, y: int)
    ensures (x + y) / SECOND <= x / SECOND + y / SECOND + 1
  {
  }

  lemma StepRefills(delay: nat, b: Bucket, bandwidth: nat, time: int, low: nat, datagram: nat)
    requires b.Valid() && 0 < b.lastSent <= time && low <= bandwidth && datagram <= b.datagram
    ensures BudgetAt(delay, b, bandwidth, time)
            >= Min(MaxBurst(delay, low, datagram), b.budget + low * (time - b.lastSent) / SECOND)
  {
    MaxBurstGrows(delay, low, bandwidth, datagram, b.datagram);
    RefillReaches(low, bandwidth, time - b.lastSent);
    ProductIsNatural(bandwidth, time - b.lastSent);
    hide MaxBurst;
  }

  ghost predicate IsAbove(delay: nat, b: Bucket, r: Bucket, ops: seq<Op>, low: nat, datagram: nat) {
    && datagram <= r.datagram && b.lastSent <= r.lastSent
    && r.budget + Bytes(ops) >= Min(MaxBurst(delay, low, datagram), b.budget + low * (r.lastSent - b.lastSent) / SECOND - |ops|)
  }

  // What is left in the bucket and what was sent are together at least one burst, or else what there was at first and the
  // least rate times the elapsed time, rounded down, less one byte for every send.
  lemma {:induction false} LedgerStaysAbove(delay: nat, b: Bucket, ops: seq<Op>, maxBandwidth: nat, maxDatagram: nat,
                                            low: nat, datagram: nat)
    requires Conforms(delay, b, ops, maxBandwidth, maxDatagram)
    requires AllAtLeast(ops, low, datagram) && datagram <= b.datagram && 0 < b.lastSent
    ensures IsAbove(delay, b, Run(delay, b, ops, maxBandwidth, maxDatagram).value, ops, low, datagram)
  {
    if ops == [] {
      assert low * 0 == 0;
    } else {
      hide MaxBurst, BudgetAt, Conforms;
      var n := |ops| - 1;
      PrefixConforms(delay, b, ops, maxBandwidth, maxDatagram, n);
      LedgerStaysAbove(delay, b, ops[..n], maxBandwidth, maxDatagram, low, datagram);
      assert OpAtLeast(ops[n], low, datagram);
      hide AllAtLeast;
      LastOpKeepsAbove(delay, b, ops, maxBandwidth, maxDatagram, low, datagram);
    }
  }

  lemma LastOpKeepsAbove(delay: nat, b: Bucket, ops: seq<Op>, maxBandwidth: nat, maxDatagram: nat, low: nat, datagram: nat)
    requires Conforms(delay, b, ops, maxBandwidth, maxDatagram) && ops != [] && 0 < b.lastSent
    requires OpAtLeast(ops[|ops| - 1], low, datagram)
    requires var before := Run(delay, b, ops[..|ops| - 1], maxBandwidth, maxDatagram);
             before.Some? && IsAbove(delay, b, before.value, ops[..|ops| - 1], low, datagram)
    ensures IsAbove(delay, b, Run(delay, b, ops, maxBandwidth, maxDatagram).value, ops, low, datagram)
  {
    hide MaxBurst, BudgetAt;
    var n := |ops| - 1;
    var before := Run(delay, b, ops[..n], maxBandwidth, maxDatagram).value;
    if ops[n].Send? {
      var budget := BudgetAt(delay, before, ops[n].bandwidth, ops[n].time);
      var refill, earlier := low * (ops[n].time - before.lastSent) / SECOND, low * (before.lastSent - b.lastSent) / SECOND;
      StepRefills(delay, before, ops[n].bandwidth, ops[n].time, low, datagram);
      RefillsLoseLessThanAByte(low, b.lastSent, before.lastSent, ops[n].time);
      ProductIsNatural(low, ops[n].time - before.lastSent);
      LedgerAdds(MaxBurst(delay, low, datagram), b.budget, earlier, n, before.budget, Bytes(ops[..n]), refill, budget,
                 low * (ops[n].time - b.lastSent) / SECOND);
    }
  }

  lemma LedgerAdds(burst: int, first: int, earlier: int, n: nat, left: int, sent: nat, refill: int, budget: int, all: int)
    requires 0 <= refill
    requires left + sent >= Min(burst, first + earlier - n) && budget >= Min(burst, left + refill) && all <= earlier + refill + 1
    ensures budget + sent >= Min(burst, first + all - (n + 1))
  {
  }

  // ---- The promised time ----

  // With a datagram in the budget it is the zero time. Otherwise it is at least the pacing delay behind the last send, and if
  // it is later than that, then at no earlier time does the budget cover a datagram.
  lemma NoEarlierTimeBringsBudget(delay: nat, b: Bucket, bandwidth: nat)
    requires b.Valid() && 0 < bandwidth && 0 < b.lastSent
    ensures var time := SendTime(delay, b, bandwidth);
            if b.datagram <= b.budget then time == 0
            else
              && b.lastSent + delay <= time
              && (time == b.lastSent + delay
                  || forall now | b.lastSent <= now < time :: BudgetAt(delay, b, bandwidth, now) < b.datagram)
  {
    if b.budget < b.datagram {
      var missing := b.datagram - b.budget;
      var wait := CeilingQuotient(SECOND * missing, bandwidth);
      if delay < wait {
        forall now | b.lastSent <= now < b.lastSent + wait ensures BudgetAt(delay, b, bandwidth, now) < b.datagram {
          RefillFallsShort(wait, bandwidth, now - b.lastSent, missing);
          ProductIsNatural(bandwidth, now - b.lastSent);
          hide MaxBurst, CeilingQuotient;
        }
      }
    }
  }

  lemma RefillFallsShort(wait: nat, bandwidth: nat, elapsed: nat, missing: nat)
    requires elapsed < wait && (wait - 1) * bandwidth < SECOND * missing
    ensures Quotient(bandwidth * elapsed, SECOND) < missing
  {
    assert elapsed * bandwidth <= (wait - 1) * bandwidth;
    ProductIsNatural(bandwidth, elapsed);
  }
}
