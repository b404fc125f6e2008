/** detect_smt: BTC makes a new extreme inside the last five candles while ETH does not. */
module SmtDivergence {
  import opened Wrappers
  import opened Numeric
  import opened Candles
  import opened BoundedDeque

  const Lookback: nat := 5

  /** `candles[-5:]`. */
  function Recent(candles: seq<Candle>): seq<Candle>
  {
    Last(candles, Lookback)
  }

  /** Some candle of the window has a high above the window's second-to-last high. */
  ghost predicate NewHigh(w: seq<Candle>)
    requires |w| >= 2
  {
    exists i :: 0 <= i < |w| && w[i].high > w[|w| - 2].high
  }

  /** Some candle of the window has a low below the window's second-to-last low. */
  ghost predicate NewLow(w: seq<Candle>)
    requires |w| >= 2
  {
    exists i :: 0 <= i < |w| && w[i].low < w[|w| - 2].low
  }

  /** BTC's last five candles make a new high while ETH's do not. */
  ghost predicate BearishDivergence(btc: seq<Candle>, eth: seq<Candle>)
    requires |btc| >= 2 && |eth| >= 2
  {
    NewHigh(Recent(btc)) && !NewHigh(Recent(eth))
  }

  /** BTC's last five candles make a new low while ETH's do not. */
  ghost predicate BullishDivergence(btc: seq<Candle>, eth: seq<Candle>)
    requires |btc| >= 2 && |eth| >= 2
  {
    NewLow(Recent(btc)) && !NewLow(Recent(eth))
  }

  /** The comparisons of lines 12-18 on the two windows. */
  function Classify(b: seq<Candle>, e: seq<Candle>): (r: Option<string>)
    requires |b| >= 2 && |e| >= 2
    ensures r == Some("BEARISH") <==> NewHigh(b) && !NewHigh(e)
    ensures r == Some("BULLISH") <==> !(NewHigh(b) && !NewHigh(e)) && NewLow(b) && !NewLow(e)
    ensures r.None? <==> !(NewHigh(b) && !NewHigh(e)) && !(NewLow(b) && !NewLow(e))
  {
    HigherHigh(b);
    HigherHigh(e);
    LowerLow(b);
    LowerLow(e);
    var btcHighs, ethHighs := Highs(b), Highs(e);
    var btcLows, ethLows := Lows(b), Lows(e);
    if MaxOf(btcHighs) > btcHighs[|btcHighs| - 2] && MaxOf(ethHighs) <= ethHighs[|ethHighs| - 2] then
      Some("BEARISH")
    else if MinOf(btcLows) < btcLows[|btcLows| - 2] && MinOf(ethLows) >= ethLows[|ethLows| - 2] then
      Some("BULLISH")
    else
      None
  }

  /** The window's highest high exceeds its second-to-last high iff some high does. */
  lemma HigherHigh(w: seq<Candle>)
    requires |w| >= 2
    ensures MaxOf(Highs(w)) > Highs(w)[|w| - 2] <==> NewHigh(w)
  {
    var hs := Highs(w);
    if MaxOf(hs) > hs[|w| - 2] {
      var i :| 0 <= i < |hs| && hs[i] == MaxOf(hs);
      assert w[i].high > w[|w| - 2].high;
    }
  }

  /** The window's lowest low is below its second-to-last low iff some low is. */
  lemma LowerLow(w: seq<Candle>)
    requires |w| >= 2
    ensures MinOf(Lows(w)) < Lows(w)[|w| - 2] <==> NewLow(w)
  {
    var ls := Lows(w);
    if MinOf(ls) < ls[|w| - 2] {
      var i :| 0 <= i < |ls| && ls[i] == MinOf(ls);
      assert w[i].low < w[|w| - 2].low;
    }
  }

  /** Both lists need at least two candles, since the second-to-last one is indexed. */
  function DetectSmt(btc: seq<Candle>, eth: seq<Candle>): (r: Option<string>)
    requires |btc| >= 2 && |eth| >= 2
    ensures r == Some("BEARISH") <==> BearishDivergence(btc, eth)
    ensures r == Some("BULLISH") <==> !BearishDivergence(btc, eth) && BullishDivergence(btc, eth)
    ensures r.None? <==> !BearishDivergence(btc, eth) && !BullishDivergence(btc, eth)
  {
    Classify(Recent(btc), Recent(eth))
  }

  /** ETH's window shows no higher high exactly when its second-to-last high is the window's maximum. */
  lemma EthNoHigherHigh(eth: seq<Candle>)
    requires |eth| >= 2
    ensures var hs := Highs(Recent(eth));
      MaxOf(hs) <= hs[|hs| - 2] <==> hs[|hs| - 2] == MaxOf(hs)
  {
  }

  /** Candles older than the last five make no difference. */
  lemma OlderCandlesIgnored(olderBtc: seq<Candle>, btc: seq<Candle>, olderEth: seq<Candle>, eth: seq<Candle>)
    requires |btc| >= Lookback && |eth| >= Lookback
    ensures DetectSmt(olderBtc + btc, olderEth + eth) == DetectSmt(btc, eth)
  {
    LastIgnoresPrefix(olderBtc, btc, Lookback);
    LastIgnoresPrefix(olderEth, eth, Lookback);
  }
}
