/** OHLCV candles as the exchange returns them: `[time, open, high, low, close, volume]`. */
module Candles {

  /** Fields in list order, so `c[2]` is high, `c[3]` is low and `c[4]` is close. */
  datatype Candle = Candle(time: real, open: real, high: real, low: real, close: real, volume: real)

  /** `[c[2] for c in candles]`. */
  function Highs(candles: seq<Candle>): (hs: seq<real>)
    ensures |hs| == |candles| && forall i :: 0 <= i < |candles| ==> hs[i] == candles[i].high
  {
    seq(|candles|, i requires 0 <= i < |candles| => candles[i].high)
  }

  /** `[c[3] for c in candles]`. */
  function Lows(candles: seq<Candle>): (ls: seq<real>)
    ensures |ls| == |candles| && forall i :: 0 <= i < |candles| ==> ls[i] == candles[i].low
  {
    seq(|candles|, i requires 0 <= i < |candles| => candles[i].low)
  }
}
