/** max_pain_bias: price is pulled toward the options max-pain strike. */
module OptionsMaxPain {
  import opened Wrappers

  /** The options dictionary; `maxPain` is None when the key is absent. None as a whole stands for a falsy argument. */
  datatype OptionsData = OptionsData(maxPain: Option<real>)

  function MaxPainBias(data: Option<OptionsData>, price: real): (bias: int)
    ensures data.None? || data.value.maxPain.None? ==> bias == 0
    ensures data.Some? && data.value.maxPain.Some? ==>
      && (bias == 10 <==> price < data.value.maxPain.value)
      && (bias == -10 <==> price > data.value.maxPain.value)
      && (bias == 0 <==> price == data.value.maxPain.value)
    ensures bias in {-10, 0, 10}
  {
    if data.None? || data.value.maxPain.None? then 0
    else
      var maxPain := data.value.maxPain.value;
      if price < maxPain then 10
      else if price > maxPain then -10
      else 0
  }

  /** Prices on opposite sides of max pain get opposite biases. */
  lemma OppositeSides(data: OptionsData, below: real, above: real)
    requires data.maxPain.Some? && below < data.maxPain.value < above
    ensures MaxPainBias(Some(data), below) == -MaxPainBias(Some(data), above) == 10
  {
  }
}
