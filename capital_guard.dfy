/** The last-three-PnL guard: trading stops after three non-positive results in a row. */
module CapitalGuard {
  import opened BoundedDeque

  const Window: nat := 3

  /**
   * `trading_allowed` over the deque's contents: fewer than three results, or not all of them
   * non-positive. Trading is blocked exactly when a full window holds no positive result.
   */
  predicate Allowed(losses: seq<real>): (allowed: bool)
    ensures allowed <==> |losses| < Window || exists i :: 0 <= i < |losses| && losses[i] > 0.0
  {
    NoPositiveMember(losses);
    if |losses| < Window then true else !(forall p :: p in losses ==> p <= 0.0)
  }

  /** "Every member is non-positive" read over members and over indices. */
  lemma NoPositiveMember(losses: seq<real>)
    ensures (forall p :: p in losses ==> p <= 0.0) <==> (forall i :: 0 <= i < |losses| ==> losses[i] <= 0.0)
  {
    if forall i :: 0 <= i < |losses| ==> losses[i] <= 0.0 {
      forall p | p in losses
        ensures p <= 0.0
      {
        var i :| 0 <= i < |losses| && losses[i] == p;
      }
    } else {
      var i :| 0 <= i < |losses| && losses[i] > 0.0;
      assert losses[i] in losses;
    }
  }

  /** The module-level `_losses = deque(maxlen=3)`. */
  class LossGuard {
    var losses: seq<real>
    /** Every result passed to update_pnl, oldest first. */
    ghost var pnls: seq<real>

    ghost predicate Valid()
      reads this
    {
      losses == Last(pnls, Window)
    }

    constructor ()
      ensures Valid() && losses == [] && pnls == []
    {
      losses := [];
      pnls := [];
    }

    method UpdatePnl(pnl: real)
      requires Valid()
      modifies this
      ensures Valid() && |losses| <= Window
      ensures pnls == old(pnls) + [pnl]
      ensures losses == Append(old(losses), pnl, Window)
    {
      AppendKeepsLast(pnls, pnl, Window);
      losses := Append(losses, pnl, Window);
      pnls := pnls + [pnl];
    }

    function TradingAllowed(): (allowed: bool)
      requires Valid()
      reads this
      ensures |pnls| < Window ==> allowed
      ensures |pnls| >= Window ==>
        (allowed <==> exists i :: |pnls| - Window <= i < |pnls| && pnls[i] > 0.0)
    {
      assert forall i :: 0 <= i < |losses| ==> losses[i] == pnls[|pnls| - |losses| + i];
      Allowed(losses)
    }
  }

  /** A positive result keeps trading allowed for its own update and the two after it. */
  lemma PositivePnlAllowsTrading(q: seq<real>, pnl: real, next1: real, next2: real)
    requires |q| <= Window && pnl > 0.0
    ensures Allowed(Append(q, pnl, Window))
    ensures Allowed(Append(Append(q, pnl, Window), next1, Window))
    ensures Allowed(Append(Append(Append(q, pnl, Window), next1, Window), next2, Window))
  {
    var a := Append(q, pnl, Window);
    assert a[|a| - 1] == pnl;
    var b := Append(a, next1, Window);
    assert b[|b| - 2] == pnl;
    var c := Append(b, next2, Window);
    assert |c| < Window || c[0] == pnl;
  }
}
