/** detect_stop_hunt: large signed delta pressing against a liquidity zone. */
module StopHunt {
  import opened Wrappers
  import opened Numeric
  import opened Liquidity

  datatype HuntKind = LongStopHunt | ShortStopHunt

  /** The dictionary returned on a detection: its "type", "reason" and "strength". */
  datatype Hunt = Hunt(kind: HuntKind, reason: string, strength: real)

  /**
   * `liquidity` is None when the argument is falsy or lacks a "bids" or "asks" key.
   * A missing support (resistance) is multiplied only when delta > 1000 (delta < -1000),
   * and then raises TypeError.
   */
  function DetectStopHunt(price: real, liquidity: Option<LiquidityMap>, delta: real): (r: Result<Option<Hunt>>)
    ensures liquidity.None? ==> r == Ok(None)
    ensures r.Err? ==> r.error == TypeError
    ensures r.Err? <==>
      && liquidity.Some?
      && ((delta > 1000.0 && liquidity.value.support.None?)
          || (delta < -1000.0 && liquidity.value.resistance.None?))
    ensures (r.Ok? && r.value.Some? && r.value.value.kind == LongStopHunt) <==>
      && liquidity.Some? && delta > 1000.0
      && liquidity.value.support.Some? && price < liquidity.value.support.value * 1.002
    ensures (r.Ok? && r.value.Some? && r.value.value.kind == ShortStopHunt) <==>
      && liquidity.Some? && delta < -1000.0
      && liquidity.value.resistance.Some? && price > liquidity.value.resistance.value * 0.998
    ensures r.Ok? && r.value.Some? ==> r.value.value.strength == Abs(delta) / 100.0 > 10.0
    ensures -1000.0 <= delta <= 1000.0 ==> r == Ok(None)
  {
    if liquidity.None? then Ok(None)
    else
      var m := liquidity.value;
      if delta > 1000.0 then
        if m.support.None? then Err(TypeError)
        else if price < m.support.value * 1.002 then
          Ok(Some(Hunt(LongStopHunt, "Large sell orders below support", delta / 100.0)))
        else Ok(None)
      else if delta < -1000.0 then
        if m.resistance.None? then Err(TypeError)
        else if price > m.resistance.value * 0.998 then
          Ok(Some(Hunt(ShortStopHunt, "Large buy orders above resistance", Abs(delta) / 100.0)))
        else Ok(None)
      else Ok(None)
  }
}
