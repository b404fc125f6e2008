/** filter_false_breakout: reject a breakout whose order flow points back into the range. */
module FalseBreakout {
  import opened Wrappers
  import opened Liquidity

  /**
   * `liquidity` is None when the argument is falsy. Comparing price with a missing
   * resistance or support raises TypeError, but only when that comparison is reached.
   */
  function FilterFalseBreakout(price: real, liquidity: Option<LiquidityMap>, delta: real): (r: Result<bool>)
    ensures liquidity.None? ==> r == Ok(false)
    ensures r.Err? ==> r.error == TypeError
    ensures r.Err? <==>
      && liquidity.Some?
      && (|| liquidity.value.resistance.None?
          || (!(price > liquidity.value.resistance.value && delta < 0.0) && liquidity.value.support.None?))
    ensures liquidity.Some? && liquidity.value.resistance.Some? && price > liquidity.value.resistance.value && delta < 0.0
      ==> r == Ok(false)
  {
    if liquidity.None? then Ok(false)
    else
      var m := liquidity.value;
      if m.resistance.None? then Err(TypeError)
      else if price > m.resistance.value && delta < 0.0 then Ok(false)
      else if m.support.None? then Err(TypeError)
      else if price < m.support.value && delta > 0.0 then Ok(false)
      else Ok(true)
  }

  /** With both levels present the filter passes exactly when neither rejection applies. */
  lemma PassIff(price: real, m: LiquidityMap, delta: real)
    requires m.support.Some? && m.resistance.Some?
    ensures FilterFalseBreakout(price, Some(m), delta) == Ok(true) <==>
      !(price > m.resistance.value && delta < 0.0) && !(price < m.support.value && delta > 0.0)
    ensures FilterFalseBreakout(price, Some(m), delta).Ok?
  {
  }

  /** Below support with buying pressure is a false breakout. */
  lemma BelowSupportWithBuying(price: real, m: LiquidityMap, delta: real)
    requires m.support.Some? && m.resistance.Some?
    requires price < m.support.value && delta > 0.0
    ensures FilterFalseBreakout(price, Some(m), delta) == Ok(false)
  {
  }

  /** Inside [support, resistance] every delta passes. */
  lemma InsideRangePasses(price: real, m: LiquidityMap, delta: real)
    requires m.support.Some? && m.resistance.Some?
    requires m.support.value <= price <= m.resistance.value
    ensures FilterFalseBreakout(price, Some(m), delta) == Ok(true)
  {
  }

  /** With no order-flow imbalance every price passes once both levels exist. */
  lemma ZeroDeltaPasses(price: real, m: LiquidityMap)
    requires m.support.Some? && m.resistance.Some?
    ensures FilterFalseBreakout(price, Some(m), 0.0) == Ok(true)
  {
  }
}
