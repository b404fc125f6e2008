/** atr and volatility_ok: the average true range over recent candles, relative to the last close. */
module VolatilityFilter {
  import opened Numeric
  import opened Candles
  import opened BoundedDeque

  const DefaultPeriod: nat := 14
  const DefaultMinRatio: real := 0.002

  /** A candle's true range against the previous close. */
  function TrueRange(c: Candle, prevClose: real): (tr: real)
    ensures tr >= c.high - c.low && tr >= Abs(c.high - prevClose) && tr >= Abs(c.low - prevClose)
    ensures tr >= 0.0
    ensures tr == c.high - c.low || tr == Abs(c.high - prevClose) || tr == Abs(c.low - prevClose)
  {
    Max(Max(c.high - c.low, Abs(c.high - prevClose)), Abs(c.low - prevClose))
  }

  /** The true ranges of candles 1 .. n-1, each against the close before it. */
  function TrueRanges(candles: seq<Candle>): (trs: seq<real>)
    ensures |trs| == if |candles| < 2 then 0 else |candles| - 1
    ensures forall i :: 0 <= i < |trs| ==> trs[i] == TrueRange(candles[i + 1], candles[i].close)
  {
    if |candles| < 2 then []
    else TrueRanges(candles[..|candles| - 1]) + [TrueRange(candles[|candles| - 1], candles[|candles| - 2].close)]
  }

  /** The mean of the last `period` true ranges (all of them when there are fewer); never negative. */
  function AverageTrueRange(candles: seq<Candle>, period: nat): (atr: real)
    requires |candles| >= 2 && period >= 1
    ensures atr >= 0.0
  {
    var trs := TrueRanges(candles);
    var recent := Last(trs, period);
    RecentNonNegative(trs, recent, candles);
    MeanNonNegative(recent);
    Mean(recent)
  }

  /** A suffix of the true ranges holds only non-negative values. */
  lemma RecentNonNegative(trs: seq<real>, recent: seq<real>, candles: seq<Candle>)
    requires trs == TrueRanges(candles) && |recent| <= |trs|
    requires forall i :: 0 <= i < |recent| ==> recent[i] == trs[|trs| - |recent| + i]
    ensures forall i :: 0 <= i < |recent| ==> recent[i] >= 0.0
  {
    forall i | 0 <= i < |recent|
      ensures recent[i] >= 0.0
    {
      var k := |trs| - |recent| + i;
      assert recent[i] == trs[k] == TrueRange(candles[k + 1], candles[k].close);
    }
  }

  /** At least two candles are needed: numpy's mean of no true ranges is not a number. */
  method Atr(candles: seq<Candle>, period: nat) returns (a: real)
    requires |candles| >= 2 && period >= 1
    ensures a == AverageTrueRange(candles, period)
    ensures a >= 0.0
  {
    var trs: seq<real> := [];
    for i := 1 to |candles|
      invariant trs == TrueRanges(candles[..i])
    {
      var high := candles[i].high;
      var low := candles[i].low;
      var prevClose := candles[i - 1].close;
      var tr := Max(Max(high - low, Abs(high - prevClose)), Abs(low - prevClose));
      ghost var upTo := candles[..i + 1];
      assert upTo[..i] == candles[..i] && upTo[i] == candles[i] && upTo[i - 1] == candles[i - 1];
      assert TrueRanges(upTo) == TrueRanges(candles[..i]) + [TrueRange(candles[i], prevClose)];
      trs := trs + [tr];
    }
    assert candles[..|candles|] == candles;
    var recent := Last(trs, period);
    a := Sum(recent) / |recent| as real;
  }

  /** The last close must be non-zero, since the ratio divides by it. */
  method VolatilityOk(candles: seq<Candle>, minRatio: real) returns (ok: bool)
    requires |candles| >= 2 && candles[|candles| - 1].close != 0.0
    ensures ok <==> AverageTrueRange(candles, DefaultPeriod) / candles[|candles| - 1].close >= minRatio
  {
    var a := Atr(candles, DefaultPeriod);
    var price := candles[|candles| - 1].close;
    ok := a / price >= minRatio;
  }

  /** With the default ratio and a positive last close, volatility is enough when ATR(14) is at least 0.2% of that close. */
  lemma DefaultRatio(candles: seq<Candle>)
    requires |candles| >= 2 && candles[|candles| - 1].close > 0.0
    ensures AverageTrueRange(candles, DefaultPeriod) / candles[|candles| - 1].close >= DefaultMinRatio <==>
      AverageTrueRange(candles, DefaultPeriod) >= 0.002 * candles[|candles| - 1].close
  {
    RatioThreshold(AverageTrueRange(candles, DefaultPeriod), candles[|candles| - 1].close, DefaultMinRatio);
  }
}
