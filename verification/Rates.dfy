// Integer rate arithmetic (bbr/bandwidth.go) and the small helpers every layer shares.
module Rates {
  const U64 := 0x1_0000_0000_0000_0000
  const SECOND := 1_000_000_000
  const INVALID_PACKET := -1

  // The largest uint64: "no send rate is known".
  const INF_BANDWIDTH := U64 - 1

  function Min(a: int, b: int): int { if a < b then a else b }

  function Max(a: int, b: int): int { if a < b then b else a }

  // The conversion of gain * x to an integer type; both factors are non-negative wherever it is used.
  function Scale(gain: real, x: int): int { (gain * (x as real)).Floor }

  lemma ScaleGrows(gain: real, x: nat)
    requires 1.0 <= gain
    ensures x <= Scale(gain, x)
  {
    assert x as real <= gain * (x as real);
  }

  lemma QuotientIsNatural(x: nat, y: int)
    requires 0 < y
    ensures 0 <= x / y
  {
    var q := x / y;
    assert x == q * y + x % y;
    NegativeProduct(q, y);
  }

  lemma NegativeProduct(q: int, y: int)
    requires 0 < y
    ensures q < 0 ==> q * y <= -y
  {
  }

  // Whole bytes per second, as many as fit the machine's product.
  function BytesPerSecondFromDelta(bytes: int, delta: int): (r: nat)
    requires 0 < delta
  {
    QuotientIsNatural(bytes * SECOND % U64, delta);
    bytes * SECOND % U64 / delta
  }

  lemma RemainderIs(q: int, r: int)
    requires 0 <= r < U64
    ensures (q * U64 + r) % U64 == r
  {
  }

  lemma EightfoldRemainder(x: nat)
    ensures x * 8 % U64 == x % (U64 / 8) * 8
  {
    var q, r := x / (U64 / 8), x % (U64 / 8);
    assert x == q * (U64 / 8) + r;
    RemainderIs(q, r * 8);
  }

  // Eight times x, reduced, is a multiple of 8 still.
  function EightfoldModulo(x: nat): (r: nat)
    ensures r % 8 == 0 && r < INF_BANDWIDTH
    ensures x * 8 < U64 ==> r == x * 8
  {
    EightfoldRemainder(x);
    x * 8 % U64
  }

  // Bits per second from bytes over nanoseconds, with every uint64 conversion and product reduced as the
  // machine does. Division by a zero delta panics in the source.
  function BandwidthFromDelta(bytes: int, delta: int): (r: nat)
    requires 0 < delta
    ensures r % 8 == 0
    ensures r < INF_BANDWIDTH
  {
    EightfoldModulo(BytesPerSecondFromDelta(bytes, delta))
  }

  function BytesFromBandwidthAndTimeDelta(bandwidth: int, delta: int): int { bandwidth * delta / (SECOND * 8) }

  // Without wrap-around the rate is the slope rounded down to a whole number of bytes per second.
  lemma BandwidthIsRoundedSlope(bytes: nat, delta: int)
    requires 0 < delta
    requires bytes * SECOND < U64
    requires bytes * SECOND / delta * 8 < U64
    ensures var bps := BandwidthFromDelta(bytes, delta) / 8;
            bps * delta <= bytes * SECOND < (bps + 1) * delta
  {
    var x := bytes * SECOND;
    var q := x / delta;
    assert x % U64 == x;
    assert BytesPerSecondFromDelta(bytes, delta) == q;
    assert BandwidthFromDelta(bytes, delta) == q * 8;
    hide BandwidthFromDelta, BytesPerSecondFromDelta;
    assert x == q * delta + x % delta;
    assert (q + 1) * delta == q * delta + delta;
  }

  // What a rate carries in a time is their product rounded down to whole bytes; so what the rate of some bytes carries in
  // their own time is no more than the bytes, and less by no more than the rounding of the rate.
  lemma BytesAreRateTimesTime(bandwidth: nat, delta: nat)
    ensures var bytes := BytesFromBandwidthAndTimeDelta(bandwidth, delta);
            0 <= bytes && bytes * 8_000_000_000 <= bandwidth * delta < (bytes + 1) * 8_000_000_000
  {
    assert 0 <= bandwidth * delta;
  }

  lemma BytesComeBack(bytes: nat, delta: int)
    requires 0 < delta && bytes * SECOND < U64 && bytes * SECOND / delta * 8 < U64
    ensures var back := BytesFromBandwidthAndTimeDelta(BandwidthFromDelta(bytes, delta), delta);
            back <= bytes && bytes * SECOND < back * SECOND + SECOND + delta
  {
    BandwidthIsRoundedSlope(bytes, delta);
    var bps := BandwidthFromDelta(bytes, delta) / 8;
    BytesAreRateTimesTime(bps * 8, delta);
    assert bps * 8 * delta == 8 * (bps * delta);
    assert (bps + 1) * delta == bps * delta + delta;
    hide BandwidthFromDelta, BytesFromBandwidthAndTimeDelta;
  }
}
