/** adaptive_weight: a step function of the recent win rate. */
module AdaptiveWeights {
  import opened Wrappers

  function AdaptiveWeight(winrate: Option<real>): (w: real)
    ensures winrate.None? ==> w == 1.0
    ensures winrate.Some? ==> (w == 1.2 <==> winrate.value > 60.0)
    ensures winrate.Some? ==> (w == 0.8 <==> winrate.value < 40.0)
    ensures winrate.Some? ==> (w == 1.0 <==> 40.0 <= winrate.value <= 60.0)
    ensures w in {0.8, 1.0, 1.2}
  {
    if winrate.None? then 1.0
    else if winrate.value > 60.0 then 1.2
    else if winrate.value < 40.0 then 0.8
    else 1.0
  }

  /** A higher win rate never gets a smaller weight. */
  lemma WeightMonotone(a: real, b: real)
    requires a <= b
    ensures AdaptiveWeight(Some(a)) <= AdaptiveWeight(Some(b))
  {
  }
}
