/** clamp and smart_score: the composite score from the detector flags, order flow and open interest. */
module ScoreEngine {
  import opened Numeric
  import opened OrderFlow

  /** `max(min_v, min(val, max_v))`. */
  function Clamp(val: real, minV: real, maxV: real): (r: real)
    ensures minV <= maxV ==> minV <= r <= maxV
    ensures minV <= val <= maxV ==> r == val
    ensures minV <= maxV && val < minV ==> r == minV
    ensures minV <= maxV && val > maxV ==> r == maxV
  {
    var lower := if val < maxV then val else maxV;
    if minV > lower then minV else lower
  }

  /** The order-flow term: |delta| / 10, clamped to [0, 25]. */
  function FlowTerm(delta: real): (t: real)
    ensures 0.0 <= t <= 25.0
  {
    Clamp(Abs(delta) / 10.0, 0.0, 25.0)
  }

  /** The open-interest term: oi / 1,000,000, clamped to [0, 15]. */
  function OiTerm(oi: real): (t: real)
    ensures 0.0 <= t <= 15.0
    ensures oi <= 0.0 ==> t == 0.0
  {
    Clamp(oi / 1000000.0, 0.0, 15.0)
  }

  /**
   * The score before `round(score, 2)`. Each flag stands for the truthiness of the
   * corresponding argument (a kill-zone name, a dictionary or None, a boolean).
   */
  function RawScore(killZone: bool, br: bool, flow: Flow, liquidity: bool,
                    stopHunt: bool, consolidation: bool, oi: real): (raw: real)
    ensures -45.0 <= raw <= 110.0
  {
    0.0
    + (if killZone then 20.0 else -10.0)
    + (if br then 25.0 else -15.0)
    + FlowTerm(flow.delta)
    + (if liquidity then 15.0 else -10.0)
    + (if stopHunt then 10.0 else 0.0)
    - (if consolidation then 10.0 else 0.0)
    + OiTerm(oi)
  }

  /** smart_score: the raw score rounded to cents; it is not clamped to [0, 100]. */
  function SmartScore(killZone: bool, br: bool, flow: Flow, liquidity: bool,
                      stopHunt: bool, consolidation: bool, oi: real): (score: real)
    ensures -45.0 <= score <= 110.0
    ensures -0.005 <= score - RawScore(killZone, br, flow, liquidity, stopHunt, consolidation, oi) <= 0.005
  {
    var raw := RawScore(killZone, br, flow, liquidity, stopHunt, consolidation, oi);
    Round2Within(raw, -4500, 11000);
    Round2(raw)
  }

  /** Both ends of the raw score's range [-45, 110] are reached. */
  lemma RawScoreExtremes()
    ensures RawScore(false, false, Flow(0.0), false, false, true, 0.0) == -45.0
    ensures RawScore(true, true, Flow(250.0), true, true, false, 15000000.0) == 110.0
  {
  }

  /** The order-flow term depends on |delta| only. */
  lemma FlowTermSymmetric(delta: real)
    ensures FlowTerm(delta) == FlowTerm(-delta)
  {
  }

  /** Turning kill_zone, br, liquidity or stop_hunt on raises the raw score by 30, 40, 25 and 10; consolidation lowers it by 10. */
  lemma FlagEffects(killZone: bool, br: bool, flow: Flow, liquidity: bool,
                    stopHunt: bool, consolidation: bool, oi: real)
    ensures RawScore(true, br, flow, liquidity, stopHunt, consolidation, oi)
         == RawScore(false, br, flow, liquidity, stopHunt, consolidation, oi) + 30.0
    ensures RawScore(killZone, true, flow, liquidity, stopHunt, consolidation, oi)
         == RawScore(killZone, false, flow, liquidity, stopHunt, consolidation, oi) + 40.0
    ensures RawScore(killZone, br, flow, true, stopHunt, consolidation, oi)
         == RawScore(killZone, br, flow, false, stopHunt, consolidation, oi) + 25.0
    ensures RawScore(killZone, br, flow, liquidity, true, consolidation, oi)
         == RawScore(killZone, br, flow, liquidity, false, consolidation, oi) + 10.0
    ensures RawScore(killZone, br, flow, liquidity, stopHunt, true, oi)
         == RawScore(killZone, br, flow, liquidity, stopHunt, false, oi) - 10.0
  {
  }

  /** After rounding, raising kill_zone, br, liquidity or stop_hunt still strictly raises the score, and consolidation still lowers it. */
  lemma FlagsMoveSmartScore(killZone: bool, br: bool, flow: Flow, liquidity: bool,
                                               stopHunt: bool, consolidation: bool, oi: real)
    ensures SmartScore(false, br, flow, liquidity, stopHunt, consolidation, oi)
          < SmartScore(true, br, flow, liquidity, stopHunt, consolidation, oi)
    ensures SmartScore(killZone, false, flow, liquidity, stopHunt, consolidation, oi)
          < SmartScore(killZone, true, flow, liquidity, stopHunt, consolidation, oi)
    ensures SmartScore(killZone, br, flow, false, stopHunt, consolidation, oi)
          < SmartScore(killZone, br, flow, true, stopHunt, consolidation, oi)
    ensures SmartScore(killZone, br, flow, liquidity, false, consolidation, oi)
          < SmartScore(killZone, br, flow, liquidity, true, consolidation, oi)
    ensures SmartScore(killZone, br, flow, liquidity, stopHunt, true, oi)
          < SmartScore(killZone, br, flow, liquidity, stopHunt, false, oi)
  {
    FlagEffects(killZone, br, flow, liquidity, stopHunt, consolidation, oi);
  }
}
