/** macro_score: additive bias from open interest, crowd positioning, liquidations and ETF flow. */
module Macro {
  import opened Wrappers

  /**
   * Each argument is None when it is falsy; a present dictionary may lack its keys,
   * which `.get(key, 0)` reads as 0 (an empty dictionary therefore behaves as None).
   */
  datatype OpenInterest = OpenInterest(change: Option<real>)
  datatype LongShort = LongShort(longRatio: Option<real>, shortRatio: Option<real>)
  datatype Liquidations = Liquidations(total: Option<real>)
  datatype EtfFlow = EtfFlow(netFlow: Option<real>)

  const LiquidationSpike: real := 50000000.0
  const CrowdedRatio: real := 0.55

  function MacroScore(oi: Option<OpenInterest>, longShort: Option<LongShort>,
                      liquidations: Option<Liquidations>, etf: Option<EtfFlow>): (score: int)
    ensures -25 <= score <= 45
    ensures oi.None? && longShort.None? && liquidations.None? && etf.None? ==> score == 0
  {
    (if oi.Some? && oi.value.change.GetOr(0.0) > 0.0 then 10 else 0)
    + (if longShort.Some? then
         if longShort.value.longRatio.GetOr(0.0) > CrowdedRatio then -5
         else if longShort.value.shortRatio.GetOr(0.0) > CrowdedRatio then 5
         else 0
       else 0)
    + (if liquidations.Some? && liquidations.value.total.GetOr(0.0) > LiquidationSpike then 10 else 0)
    + (if etf.Some? then
         if etf.value.netFlow.GetOr(0.0) > 0.0 then 20
         else if etf.value.netFlow.GetOr(0.0) < 0.0 then -20
         else 0
       else 0)
  }

  /** The four contributions are independent: the score is the sum of the scores of each input alone. */
  lemma MacroScoreIsAdditive(oi: Option<OpenInterest>, longShort: Option<LongShort>,
                             liquidations: Option<Liquidations>, etf: Option<EtfFlow>)
    ensures MacroScore(oi, longShort, liquidations, etf) ==
      MacroScore(oi, None, None, None) + MacroScore(None, longShort, None, None)
      + MacroScore(None, None, liquidations, None) + MacroScore(None, None, None, etf)
  {
  }

  /** Open interest alone: +10 exactly when its change is positive. */
  lemma OpenInterestTerm(oi: OpenInterest)
    ensures MacroScore(Some(oi), None, None, None) == if oi.change.Some? && oi.change.value > 0.0 then 10 else 0
  {
  }

  /** Positioning alone: -5 for a crowded long side, else +5 for a crowded short side; the long test wins. */
  lemma CrowdTerm(ls: LongShort)
    ensures ls.longRatio.Some? && ls.longRatio.value > CrowdedRatio ==> MacroScore(None, Some(ls), None, None) == -5
    ensures (ls.longRatio.None? || ls.longRatio.value <= CrowdedRatio) && ls.shortRatio.Some? && ls.shortRatio.value > CrowdedRatio
      ==> MacroScore(None, Some(ls), None, None) == 5
    ensures (ls.longRatio.None? || ls.longRatio.value <= CrowdedRatio) && (ls.shortRatio.None? || ls.shortRatio.value <= CrowdedRatio)
      ==> MacroScore(None, Some(ls), None, None) == 0
  {
  }

  /** Liquidations alone: +10 exactly when the total exceeds 50,000,000. */
  lemma LiquidationTerm(liq: Liquidations)
    ensures MacroScore(None, None, Some(liq), None) == if liq.total.Some? && liq.total.value > LiquidationSpike then 10 else 0
  {
  }

  /** ETF flow alone: +20 for inflow, -20 for outflow, 0 otherwise. */
  lemma EtfTerm(etf: EtfFlow)
    ensures MacroScore(None, None, None, Some(etf)) ==
      if etf.netFlow.Some? && etf.netFlow.value > 0.0 then 20
      else if etf.netFlow.Some? && etf.netFlow.value < 0.0 then -20
      else 0
  {
  }
}
