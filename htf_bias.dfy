/** get_htf_bias: where the last close sits against the midpoint of the candles' range. The candles are passed in rather than fetched. */
module HtfBias {
  import opened Numeric
  import opened Candles

  /** `(max(highs) + min(lows)) / 2`. */
  function Mid(candles: seq<Candle>): (mid: real)
    requires candles != []
    ensures MinOf(Lows(candles)) <= MaxOf(Highs(candles)) ==> MinOf(Lows(candles)) <= mid <= MaxOf(Highs(candles))
  {
    (MaxOf(Highs(candles)) + MinOf(Lows(candles))) / 2.0
  }

  /** The candle list must be non-empty: max, min and `candles[-1]` all fail on an empty one. */
  function GetHtfBias(candles: seq<Candle>): (bias: string)
    requires candles != []
    ensures bias == "BULLISH" <==> 2.0 * candles[|candles| - 1].close > MaxOf(Highs(candles)) + MinOf(Lows(candles))
    ensures bias == "BEARISH" <==> 2.0 * candles[|candles| - 1].close < MaxOf(Highs(candles)) + MinOf(Lows(candles))
    ensures bias == "NEUTRAL" <==> 2.0 * candles[|candles| - 1].close == MaxOf(Highs(candles)) + MinOf(Lows(candles))
  {
    var close := candles[|candles| - 1].close;
    var mid := Mid(candles);
    if close > mid then "BULLISH"
    else if close < mid then "BEARISH"
    else "NEUTRAL"
  }

  /** A close above every high is bullish; a close below every low is bearish (for well-formed candles). */
  lemma CloseBeyondRange(candles: seq<Candle>)
    requires candles != []
    requires forall i :: 0 <= i < |candles| ==> candles[i].low <= candles[i].high
    ensures (forall i :: 0 <= i < |candles| ==> candles[|candles| - 1].close > candles[i].high)
      ==> GetHtfBias(candles) == "BULLISH"
    ensures (forall i :: 0 <= i < |candles| ==> candles[|candles| - 1].close < candles[i].low)
      ==> GetHtfBias(candles) == "BEARISH"
  {
    var hs, ls := Highs(candles), Lows(candles);
    assert MinOf(ls) <= ls[0] <= hs[0] <= MaxOf(hs);
    assert MaxOf(hs) in hs && MinOf(ls) in ls;
  }
}
