/** etf_lag_bias: the sign of the average of the last three ETF net flows. */
module EtfLag {
  import opened Wrappers
  import opened Numeric
  import opened BoundedDeque

  const HistoryLength: nat := 3

  /** The bias a history of flows gives: 0 below two flows, else +15, -15 or 0 by the sign of their sum. */
  function LagBias(history: seq<real>): (bias: int)
    ensures bias in {-15, 0, 15}
  {
    if |history| < 2 then 0
    else if Sum(history) > 0.0 then 15
    else if Sum(history) < 0.0 then -15
    else 0
  }

  /** The module-level `_etf_history = deque(maxlen=3)`. */
  class EtfHistory {
    var history: seq<real>
    /** Every non-None flow received, oldest first. */
    ghost var flows: seq<real>

    /** The deque holds the most recent flows, at most three, in arrival order. */
    ghost predicate Valid()
      reads this
    {
      history == Last(flows, HistoryLength)
    }

    constructor ()
      ensures Valid() && history == [] && flows == []
    {
      history := [];
      flows := [];
    }

    method EtfLagBias(netFlow: Option<real>) returns (bias: int)
      requires Valid()
      modifies this
      ensures Valid() && |history| <= HistoryLength
      ensures netFlow.None? ==> bias == 0 && history == old(history) && flows == old(flows)
      ensures netFlow.Some? ==>
        && flows == old(flows) + [netFlow.value]
        && history == Append(old(history), netFlow.value, HistoryLength)
        && bias == LagBias(history)
      ensures bias in {-15, 0, 15}
    {
      if netFlow.None? {
        return 0;
      }
      AppendKeepsLast(flows, netFlow.value, HistoryLength);
      history := Append(history, netFlow.value, HistoryLength);
      flows := flows + [netFlow.value];

      if |history| < 2 {
        return 0;
      }
      var total := Sum(history);
      var avg := total / |history| as real;
      SignOfAverage(total, |history| as real);
      if avg > 0.0 {
        bias := 15;
      } else if avg < 0.0 {
        bias := -15;
      } else {
        bias := 0;
      }
    }
  }

  /** Dividing by a positive count keeps the sign. */
  lemma SignOfAverage(total: real, count: real)
    requires count > 0.0
    ensures total / count > 0.0 <==> total > 0.0
    ensures total / count < 0.0 <==> total < 0.0
  {
    assert total / count * count == total;
  }

  /** The first flow received gives no bias, whatever its sign. */
  lemma FirstFlowIsNeutral(flow: real)
    ensures LagBias(Append([], flow, HistoryLength)) == 0
  {
  }
}
