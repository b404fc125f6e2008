/** The per-symbol high/low tracker `asia_range` with update_asia_range and get_asia_range. */
module RangeTracker {
  import opened Wrappers
  import opened Numeric

  /** A symbol's entry; the defaultdict creates it with both fields None. */
  datatype Range = Range(high: Option<real>, low: Option<real>)

  const Unset: Range := Range(None, None)

  class AsiaRange {
    /** `asia_range`, the entries that exist so far. */
    var ranges: map<string, Range>
    /** Every price fed for each symbol, oldest first. */
    ghost var fed: map<string, seq<real>>

    /** Each stored entry holds the highest and lowest price ever fed for its symbol. */
    ghost predicate Valid()
      reads this
    {
      && ranges.Keys == fed.Keys
      && forall s :: s in ranges ==>
           && fed[s] != []
           && ranges[s] == Range(Some(MaxOf(fed[s])), Some(MinOf(fed[s])))
    }

    constructor ()
      ensures Valid() && ranges == map[] && fed == map[]
    {
      ranges := map[];
      fed := map[];
    }

    /** The prices fed so far for a symbol. */
    ghost function History(symbol: string): seq<real>
      reads this
    {
      if symbol in fed then fed[symbol] else []
    }

    method UpdateAsiaRange(symbol: string, price: real)
      requires Valid()
      modifies this
      ensures Valid()
      ensures fed == old(fed)[symbol := old(History(symbol)) + [price]]
      ensures ranges.Keys == old(ranges).Keys + {symbol}
      ensures forall s :: s in old(ranges) && s != symbol ==> ranges[s] == old(ranges)[s]
      ensures ranges[symbol].high.Some? && ranges[symbol].low.Some?
      ensures ranges[symbol].low.value <= price <= ranges[symbol].high.value
      ensures symbol !in old(ranges) ==> ranges[symbol] == Range(Some(price), Some(price))
      ensures symbol in old(ranges) ==>
        && old(ranges)[symbol].high.value <= ranges[symbol].high.value
        && ranges[symbol].low.value <= old(ranges)[symbol].low.value
    {
      var r := if symbol in ranges then ranges[symbol] else Unset;
      if r.high.None? || price > r.high.value {
        r := r.(high := Some(price));
      }
      if r.low.None? || price < r.low.value {
        r := r.(low := Some(price));
      }
      ghost var before := History(symbol);
      ghost var after := before + [price];
      ExtendExtremes(before, price);
      assert r == Range(Some(MaxOf(after)), Some(MinOf(after)));
      ranges := ranges[symbol := r];
      fed := fed[symbol := after];
    }

    /** The extremes of a price history after one more price. */
    static lemma ExtendExtremes(before: seq<real>, price: real)
      ensures before == [] ==> MaxOf(before + [price]) == price == MinOf(before + [price])
      ensures before != [] ==> MaxOf(before + [price]) == (if price > MaxOf(before) then price else MaxOf(before))
      ensures before != [] ==> MinOf(before + [price]) == (if price < MinOf(before) then price else MinOf(before))
    {
      var after := before + [price];
      if before != [] {
        assert after[..|after| - 1] == before;
      }
    }

    /** `asia_range.get(symbol)`: None for a symbol never updated, since `.get` creates no entry. */
    function GetAsiaRange(symbol: string): (r: Option<Range>)
      requires Valid()
      reads this
      ensures r.None? <==> History(symbol) == []
      ensures r.Some? ==> r.value.high.Some? && r.value.low.Some? && r.value.low.value <= r.value.high.value
      ensures r.Some? ==> forall i :: 0 <= i < |History(symbol)| ==>
        r.value.low.value <= History(symbol)[i] <= r.value.high.value
      ensures r.Some? ==> r.value.high.value in History(symbol) && r.value.low.value in History(symbol)
    {
      if symbol in ranges then
        assert MinOf(fed[symbol]) <= fed[symbol][0] <= MaxOf(fed[symbol]);
        Some(ranges[symbol])
      else None
    }
  }
}
