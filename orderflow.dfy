/** calculate_delta: signed traded volume over a list of trades. */
module OrderFlow {
  import opened Wrappers
  import opened Numeric

  /** A trade dictionary; only "size" and "side" are read, and either key may be absent. */
  datatype Trade = Trade(size: Option<real>, side: Option<string>)

  /** The dictionary calculate_delta returns. */
  datatype Flow = Flow(delta: real)

  /** `t.get("size", 0)`. */
  function Size(t: Trade): real
  {
    t.size.GetOr(0.0)
  }

  /** `t.get("side", "buy") == "buy"`: a trade without a side counts as a buy. */
  predicate IsBuy(t: Trade)
  {
    t.side.GetOr("buy") == "buy"
  }

  /** What one trade adds to delta. */
  function Signed(t: Trade): real
  {
    if IsBuy(t) then Size(t) else -Size(t)
  }

  /** Total absolute traded size, the bound on |delta|. */
  function Volume(trades: seq<Trade>): (v: real)
    ensures v >= 0.0
  {
    if trades == [] then 0.0 else Volume(trades[..|trades| - 1]) + Abs(Size(trades[|trades| - 1]))
  }

  /** Delta of a trade list: buys add their size, every other side subtracts it; |delta| never exceeds the total absolute size traded. */
  function Delta(trades: seq<Trade>): (d: real)
    ensures Abs(d) <= Volume(trades)
  {
    if trades == [] then 0.0 else Delta(trades[..|trades| - 1]) + Signed(trades[|trades| - 1])
  }

  /** Sum of the sizes as recorded, signs included. */
  function TotalSize(trades: seq<Trade>): real
  {
    if trades == [] then 0.0 else TotalSize(trades[..|trades| - 1]) + Size(trades[|trades| - 1])
  }

  method CalculateDelta(trades: seq<Trade>) returns (flow: Flow)
    ensures flow.delta == Delta(trades)
    ensures trades == [] ==> flow.delta == 0.0
  {
    var delta := 0.0;
    for i := 0 to |trades|
      invariant delta == Delta(trades[..i])
    {
      assert trades[..i + 1][..i] == trades[..i];
      var t := trades[i];
      var size := t.size.GetOr(0.0);
      var side := t.side.GetOr("buy");
      delta := delta + if side == "buy" then size else -size;
    }
    assert trades[..|trades|] == trades;
    flow := Flow(delta);
  }

  /** A trade without a size adds nothing; a buy adds its size, any other side subtracts it. */
  lemma SignedTrade(t: Trade)
    ensures t.size.None? ==> Signed(t) == 0.0
    ensures t.side.None? || t.side == Some("buy") ==> Signed(t) == Size(t)
    ensures t.side.Some? && t.side != Some("buy") ==> Signed(t) == -Size(t)
  {
  }

  /** The delta of two trade lists back to back is the sum of their deltas. */
  lemma {:induction false} DeltaAppend(a: seq<Trade>, b: seq<Trade>)
    ensures Delta(a + b) == Delta(a) + Delta(b)
  {
    if b == [] {
      assert a + b == a;
    } else {
      assert (a + b)[..|a + b| - 1] == a + b[..|b| - 1];
      DeltaAppend(a, b[..|b| - 1]);
    }
  }

  /** When every trade is a buy, delta is the total size. */
  lemma {:induction false} AllBuysDelta(trades: seq<Trade>)
    requires forall i :: 0 <= i < |trades| ==> IsBuy(trades[i])
    ensures Delta(trades) == TotalSize(trades)
  {
    if trades != [] {
      AllBuysDelta(trades[..|trades| - 1]);
    }
  }
}
