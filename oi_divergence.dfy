/** oi_divergence: falling open interest read against the price move. */
module OpenInterestDivergence {
  import opened Wrappers

  /** Price up with open interest down is short covering (+10); both down is long covering (-10). */
  function OiDivergence(priceChange: real, oiChange: Option<real>): (bias: int)
    ensures bias == 10 <==> oiChange.Some? && priceChange > 0.0 && oiChange.value < 0.0
    ensures bias == -10 <==> oiChange.Some? && priceChange < 0.0 && oiChange.value < 0.0
    ensures bias == 0 <==> oiChange.None? || priceChange == 0.0 || oiChange.value >= 0.0
    ensures bias in {-10, 0, 10}
  {
    if oiChange.None? then 0
    else if priceChange > 0.0 && oiChange.value < 0.0 then 10
    else if priceChange < 0.0 && oiChange.value < 0.0 then -10
    else 0
  }
}
