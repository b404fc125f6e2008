/** check_consolidation: is the spread from the lowest bid to the highest ask within range_percent? */
module Consolidation {
  import opened Wrappers
  import opened Numeric
  import opened Liquidity

  const DefaultRangePercent: real := 0.5

  /** Every row unpacks as `price, size`, i.e. has exactly two elements. */
  predicate AllPairs(rows: seq<Row>)
  {
    forall i :: 0 <= i < |rows| ==> |rows[i]| == 2
  }

  /** `[price for price, size in rows]`, which raises ValueError on a row that is not a pair. */
  function PairPrices(rows: seq<Row>): (r: Result<seq<real>>)
    ensures r.Ok? <==> AllPairs(rows)
    ensures r.Ok? ==> |r.value| == |rows| && forall i :: 0 <= i < |rows| ==> r.value[i] == rows[i][0]
    ensures r.Err? ==> r.error == ValueError
  {
    if rows == [] then Ok([])
    else if |rows[0]| != 2 then Err(ValueError)
    else
      match PairPrices(rows[1..])
      case Err(e) => Err(e)
      case Ok(rest) => Ok([rows[0][0]] + rest)
  }

  /** The spread test of line 20, for non-empty price lists and a non-zero low. */
  predicate WithinRange(bidPrices: seq<real>, askPrices: seq<real>, rangePercent: real)
    requires bidPrices != [] && askPrices != [] && MinOf(bidPrices) != 0.0
  {
    (MaxOf(askPrices) - MinOf(bidPrices)) / MinOf(bidPrices) * 100.0 <= rangePercent
  }

  function CheckConsolidation(book: OrderBook, rangePercent: real): (r: Result<bool>)
    ensures r.Err? <==>
      || !AllPairs(book.bids) || !AllPairs(book.asks)
      || (book.bids != [] && book.asks != [] && MinOf(PairPrices(book.bids).value) == 0.0)
    ensures r.Err? ==> r.error == (if AllPairs(book.bids) && AllPairs(book.asks) then ZeroDivisionError else ValueError)
    ensures AllPairs(book.bids) && AllPairs(book.asks) && (book.bids == [] || book.asks == []) ==> r == Ok(false)
  {
    match PairPrices(book.bids)
    case Err(e) => Err(e)
    case Ok(bids) =>
      match PairPrices(book.asks)
      case Err(e) => Err(e)
      case Ok(asks) =>
        if bids == [] || asks == [] then Ok(false)
        else
          var high := MaxOf(asks);
          var low := MinOf(bids);
          if low == 0.0 then Err(ZeroDivisionError)
          else Ok((high - low) / low * 100.0 <= rangePercent)
  }

  /** On a well-formed, two-sided book with a non-zero lowest bid the answer is the spread test. */
  lemma ConsolidationIsSpreadTest(book: OrderBook, rangePercent: real)
    requires AllPairs(book.bids) && AllPairs(book.asks) && book.bids != [] && book.asks != []
    requires MinOf(PairPrices(book.bids).value) != 0.0
    ensures CheckConsolidation(book, rangePercent) ==
      Ok(WithinRange(PairPrices(book.bids).value, PairPrices(book.asks).value, rangePercent))
  {
  }

  /** Consolidating at one range_percent means consolidating at every larger one. */
  lemma MonotoneInRangePercent(book: OrderBook, r1: real, r2: real)
    requires r1 <= r2
    requires CheckConsolidation(book, r1) == Ok(true)
    ensures CheckConsolidation(book, r2) == Ok(true)
  {
  }

  /** Only prices are read: two books with the same shape and prices get the same answer. */
  lemma SizesIgnored(b1: OrderBook, b2: OrderBook, rangePercent: real)
    requires |b1.bids| == |b2.bids| && |b1.asks| == |b2.asks|
    requires forall i :: 0 <= i < |b1.bids| ==> |b1.bids[i]| == |b2.bids[i]| && (|b1.bids[i]| > 0 ==> b1.bids[i][0] == b2.bids[i][0])
    requires forall i :: 0 <= i < |b1.asks| ==> |b1.asks[i]| == |b2.asks[i]| && (|b1.asks[i]| > 0 ==> b1.asks[i][0] == b2.asks[i][0])
    ensures CheckConsolidation(b1, rangePercent) == CheckConsolidation(b2, rangePercent)
  {
    SamePrices(b1.bids, b2.bids);
    SamePrices(b1.asks, b2.asks);
  }

  lemma {:induction false} SamePrices(a: seq<Row>, b: seq<Row>)
    requires |a| == |b|
    requires forall i :: 0 <= i < |a| ==> |a[i]| == |b[i]| && (|a[i]| > 0 ==> a[i][0] == b[i][0])
    ensures PairPrices(a) == PairPrices(b)
  {
    if a != [] {
      SamePrices(a[1..], b[1..]);
    }
  }

  /** With the default range of 0.5%, a book consolidates when the highest ask is within 0.5% above a positive lowest bid. */
  lemma DefaultSpread(book: OrderBook)
    requires AllPairs(book.bids) && AllPairs(book.asks) && book.bids != [] && book.asks != []
    requires MinOf(PairPrices(book.bids).value) > 0.0
    ensures CheckConsolidation(book, DefaultRangePercent) ==
      Ok(MaxOf(PairPrices(book.asks).value) <= MinOf(PairPrices(book.bids).value) * 1.005)
  {
    var low, high := MinOf(PairPrices(book.bids).value), MaxOf(PairPrices(book.asks).value);
    RatioThreshold(high - low, low, 0.005);
    assert (high - low) / low * 100.0 <= 0.5 <==> (high - low) / low <= 0.005;
  }
}
