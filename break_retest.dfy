/**
 * detect_break_retest: a single stateless test of whether price sits just beyond the
 * tracked range, within a relative tolerance of the level.
 */
module BreakRetest {
  import opened Wrappers
  import opened Numeric
  import opened RangeTracker

  const DefaultTolerance: real := 0.001

  /** The level a direction tests against: the range high for "LONG", the range low otherwise. */
  function LevelFor(levels: Range, direction: string): Option<real>
  {
    if direction == "LONG" then levels.high else levels.low
  }

  /**
   * `levels` is get_asia_range's result: None when no range exists (a falsy argument).
   * A level that is None or 0 is falsy and gives False.
   */
  function DetectBreakRetest(price: real, levels: Option<Range>, direction: string, tolerance: real): (b: bool)
    ensures levels.None? ==> !b
    ensures levels.Some? && (LevelFor(levels.value, direction).None? || LevelFor(levels.value, direction) == Some(0.0)) ==> !b
    ensures b ==> levels.Some? && LevelFor(levels.value, direction).Some?
    ensures b && direction == "LONG" ==> price > LevelFor(levels.value, direction).value
    ensures b && direction != "LONG" ==> price < LevelFor(levels.value, direction).value
  {
    if levels.None? then false
    else
      var level := LevelFor(levels.value, direction);
      if level.None? || level.value == 0.0 then false
      else if direction == "LONG" then
        price > level.value && Abs(price - level.value) / level.value < tolerance
      else
        price < level.value && Abs(price - level.value) / level.value < tolerance
  }

  /** For a positive level, a relative distance below the tolerance is an absolute distance below level * tolerance. */
  lemma RelativeDistance(d: real, level: real, tolerance: real)
    requires level > 0.0 && d >= 0.0
    ensures d / level < tolerance <==> d < level * tolerance
  {
    assert d / level * level == d;
    if d / level < tolerance {
      assert d / level * level < tolerance * level;
    } else {
      assert d / level * level >= tolerance * level;
    }
  }

  /** For "LONG" and a positive range high, a detection is exactly high < price < high * (1 + tolerance). */
  lemma LongDetection(price: real, levels: Range, tolerance: real)
    requires levels.high.Some? && levels.high.value > 0.0
    ensures DetectBreakRetest(price, Some(levels), "LONG", tolerance) <==>
      levels.high.value < price < levels.high.value * (1.0 + tolerance)
  {
    var level := levels.high.value;
    if price > level {
      RelativeDistance(price - level, level, tolerance);
    }
  }

  /** For any other direction and a positive range low, a detection is exactly low * (1 - tolerance) < price < low. */
  lemma ShortDetection(price: real, levels: Range, direction: string, tolerance: real)
    requires direction != "LONG"
    requires levels.low.Some? && levels.low.value > 0.0
    ensures DetectBreakRetest(price, Some(levels), direction, tolerance) <==>
      levels.low.value * (1.0 - tolerance) < price < levels.low.value
  {
    var level := levels.low.value;
    if price < level {
      RelativeDistance(level - price, level, tolerance);
    }
  }

  /** With the default tolerance of 0.1%, a "LONG" retest is a price within 0.1% above the range high. */
  lemma DefaultLongBand(price: real, levels: Range)
    requires levels.high.Some? && levels.high.value > 0.0
    ensures DetectBreakRetest(price, Some(levels), "LONG", DefaultTolerance) <==>
      levels.high.value < price < levels.high.value * 1.001
  {
    LongDetection(price, levels, DefaultTolerance);
  }
}
