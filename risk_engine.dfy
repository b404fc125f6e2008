/** build_trade: stop and first target at a fixed distance and reward-to-risk ratio from the entry. */
module RiskEngine {
  import opened Numeric

  /** The returned dictionary. */
  datatype TradePlan = TradePlan(entry: real, sl: real, tp1: real, riskPct: real, rr: real)

  const DefaultRr: real := 3.0
  const DefaultRiskPct: real := 0.5

  /** The stop and target before rounding: "LONG" risks downward, every other direction upward. */
  function StopAndTarget(price: real, direction: string, slDistance: real, rr: real): (levels: (real, real))
    ensures slDistance > 0.0 && rr > 0.0 && direction == "LONG" ==> levels.0 < price < levels.1
    ensures slDistance > 0.0 && rr > 0.0 && direction != "LONG" ==> levels.1 < price < levels.0
    ensures rr >= 0.0 ==> Abs(levels.1 - price) == rr * Abs(price - levels.0)
    ensures Abs(price - levels.0) == Abs(slDistance)
  {
    if direction == "LONG" then
      (price - slDistance, price + slDistance * rr)
    else
      (price + slDistance, price - slDistance * rr)
  }

  function BuildTrade(price: real, direction: string, slDistance: real, rr: real, riskPct: real): (t: TradePlan)
    ensures t.entry == price && t.riskPct == riskPct && t.rr == rr
    ensures -0.005 <= t.sl - StopAndTarget(price, direction, slDistance, rr).0 <= 0.005
    ensures -0.005 <= t.tp1 - StopAndTarget(price, direction, slDistance, rr).1 <= 0.005
  {
    var (sl, tp) := StopAndTarget(price, direction, slDistance, rr);
    TradePlan(price, Round2(sl), Round2(tp), riskPct, rr)
  }

  /** Rounding to cents keeps the stop and the target on their sides of the (rounded) entry. */
  lemma RoundedLevelsOrdered(price: real, direction: string, slDistance: real, rr: real, riskPct: real)
    requires slDistance > 0.0 && rr > 0.0
    ensures var t := BuildTrade(price, direction, slDistance, rr, riskPct);
      if direction == "LONG" then t.sl <= Round2(price) <= t.tp1 else t.tp1 <= Round2(price) <= t.sl
  {
    var (sl, tp) := StopAndTarget(price, direction, slDistance, rr);
    if direction == "LONG" {
      Round2Monotone(sl, price);
      Round2Monotone(price, tp);
    } else {
      Round2Monotone(tp, price);
      Round2Monotone(price, sl);
    }
  }

  /** The default plan risks 0.5% for a target three stop-distances away. */
  lemma DefaultPlan(price: real, direction: string, slDistance: real)
    ensures var t := BuildTrade(price, direction, slDistance, DefaultRr, DefaultRiskPct);
      && t.riskPct == 0.5 && t.rr == 3.0
      && -0.005 <= t.tp1 - (if direction == "LONG" then price + 3.0 * slDistance else price - 3.0 * slDistance) <= 0.005
  {
  }
}
