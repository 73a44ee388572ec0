/**
 The two window floors the controller applies while it is still in its initial
 slow start: one for long-delay paths, derived from the minimum RTT, and one
 derived from the bandwidth-delay product.
 */
module Floors {
  import opened CcTypes
  import opened Arithmetic

  const Two64: int := 0x1_0000_0000_0000_0000

  /** The floor used once the minimum RTT is beyond the satellite RTT. */
  function SatelliteFloor(c: Constants): (r: U64)
    requires ValidConstants(c)
    ensures c.cwinInitial <= r
  {
    MulDivMonotone(c.targetRenoRtt, c.targetSatelliteRtt, c.cwinInitial, c.targetRenoRtt);
    MulDivExact(c.cwinInitial, c.targetRenoRtt);
    c.cwinInitial * c.targetSatelliteRtt / c.targetRenoRtt
  }

  /**
   The long-delay floor for a path whose minimum RTT is `rttMin`: none unless the
   RTT exceeds the Reno target, the initial window scaled by rttMin / Reno RTT up
   to the satellite RTT, and the satellite ratio beyond it. Integer floor division
   stands for the C code's double-precision product and quotient.
   */
  function LongDelayFloor(c: Constants, rttMin: U64): (r: Option<U64>)
    requires ValidConstants(c)
    ensures r.None? <==> rttMin <= c.targetRenoRtt
    ensures r.Some? ==> c.cwinInitial <= r.value <= SatelliteFloor(c)
    ensures r.Some? && rttMin <= c.targetSatelliteRtt ==> r.value == c.cwinInitial * rttMin / c.targetRenoRtt
    ensures rttMin > c.targetSatelliteRtt ==> r == Some(SatelliteFloor(c))
  {
    if rttMin <= c.targetRenoRtt then None
    else if rttMin > c.targetSatelliteRtt then Some(SatelliteFloor(c))
    else
      MulDivMonotone(rttMin, c.targetSatelliteRtt, c.cwinInitial, c.targetRenoRtt);
      MulDivMonotone(c.targetRenoRtt, rttMin, c.cwinInitial, c.targetRenoRtt);
      MulDivExact(c.cwinInitial, c.targetRenoRtt);
      assert c.cwinInitial * rttMin == rttMin * c.cwinInitial;
      assert c.cwinInitial * c.targetRenoRtt == c.targetRenoRtt * c.cwinInitial;
      assert c.cwinInitial * c.targetSatelliteRtt == c.targetSatelliteRtt * c.cwinInitial;
      Some(c.cwinInitial * rttMin / c.targetRenoRtt)
  }

  /** A longer minimum RTT never lowers the long-delay floor, and once a floor applies it keeps applying. */
  lemma {:induction false} LongDelayFloorMonotone(c: Constants, a: U64, b: U64)
    requires ValidConstants(c)
    requires a <= b
    requires LongDelayFloor(c, a).Some?
    ensures LongDelayFloor(c, b).Some?
    ensures LongDelayFloor(c, a).value <= LongDelayFloor(c, b).value
  {
    if b <= c.targetSatelliteRtt {
      MulDivMonotone(a, b, c.cwinInitial, c.targetRenoRtt);
      assert c.cwinInitial * a == a * c.cwinInitial;
      assert c.cwinInitial * b == b * c.cwinInitial;
    }
  }

  /** The product of two 64-bit counters as unsigned 64-bit arithmetic computes it. */
  function MulWrap(a: U64, b: U64): (r: U64)
    ensures a * b <= Uint64Max ==> r == a * b
    ensures (a * b - r) % Two64 == 0
  {
    (a * b) % Two64
  }

  /**
   The bandwidth floor: half the bandwidth-delay product, with the bandwidth in
   bytes per second and the smoothed RTT in microseconds. The product wraps
   modulo 2^64 as the C code's unsigned arithmetic does.
   */
  function BandwidthFloor(maxBandwidthEstimate: U64, smoothedRtt: U64): (r: U64)
    ensures maxBandwidthEstimate * smoothedRtt <= Uint64Max ==>
              r == maxBandwidthEstimate * smoothedRtt / 2000000
    ensures r <= maxBandwidthEstimate * smoothedRtt / 2000000
    ensures r == MulWrap(maxBandwidthEstimate, smoothedRtt) / 2000000
  {
    var bdp := MulWrap(maxBandwidthEstimate, smoothedRtt);
    var maxWin := bdp / 1000000;
    DivDiv(bdp);
    DivMonotone(bdp, maxBandwidthEstimate * smoothedRtt, 2000000);
    maxWin / 2
  }
}
