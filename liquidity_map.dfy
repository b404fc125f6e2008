/**
 * build_liquidity_map: clean an order book to (price, size) levels and read support,
 * resistance and total size off the cleaned sides.
 */
module Liquidity {
  import opened Wrappers
  import opened Numeric

  /** One order-book row as the exchange sends it: `[price, size]`, `[price, size, extra]`, or malformed. */
  type Row = seq<real>

  /** An order book. A side whose key is absent reads as the empty list (`.get("bids", [])`). */
  datatype OrderBook = OrderBook(bids: seq<Row>, asks: seq<Row>)

  /** A cleaned row. */
  datatype Level = Level(price: real, size: real)

  /** The dictionary build_liquidity_map returns. */
  datatype LiquidityMap = LiquidityMap(
    support: Option<real>,
    resistance: Option<real>,
    totalBidLiquidity: real,
    totalAskLiquidity: real,
    bids: seq<Level>,
    asks: seq<Level>)

  /** What one row contributes to its cleaned side: nothing when it has fewer than two elements. */
  function Keep(row: Row): seq<Level>
  {
    if |row| >= 2 then [Level(row[0], row[1])] else []
  }

  /** The cleaned side: each row with at least two elements, as (price, size), in book order. */
  function Cleaned(rows: seq<Row>): (clean: seq<Level>)
    ensures |clean| <= |rows|
  {
    if rows == [] then [] else Cleaned(rows[..|rows| - 1]) + Keep(rows[|rows| - 1])
  }

  function Prices(levels: seq<Level>): (ps: seq<real>)
    ensures |ps| == |levels| && forall i :: 0 <= i < |levels| ==> ps[i] == levels[i].price
  {
    seq(|levels|, i requires 0 <= i < |levels| => levels[i].price)
  }

  function Sizes(levels: seq<Level>): (ss: seq<real>)
    ensures |ss| == |levels| && forall i :: 0 <= i < |levels| ==> ss[i] == levels[i].size
  {
    seq(|levels|, i requires 0 <= i < |levels| => levels[i].size)
  }

  /** `min(prices, default=None)`: the lowest price of the side, None for an empty side. */
  function LowestPrice(levels: seq<Level>): (s: Option<real>)
    ensures s.None? <==> levels == []
    ensures s.Some? ==> exists i :: 0 <= i < |levels| && levels[i].price == s.value
    ensures s.Some? ==> forall i :: 0 <= i < |levels| ==> s.value <= levels[i].price
  {
    if levels == [] then None
    else
      var ps := Prices(levels);
      var m := MinOf(ps);
      assert exists i :: 0 <= i < |ps| && ps[i] == m;
      Some(m)
  }

  /** `max(prices, default=None)`: the highest price of the side, None for an empty side. */
  function HighestPrice(levels: seq<Level>): (s: Option<real>)
    ensures s.None? <==> levels == []
    ensures s.Some? ==> exists i :: 0 <= i < |levels| && levels[i].price == s.value
    ensures s.Some? ==> forall i :: 0 <= i < |levels| ==> levels[i].price <= s.value
  {
    if levels == [] then None
    else
      var ps := Prices(levels);
      var m := MaxOf(ps);
      assert exists i :: 0 <= i < |ps| && ps[i] == m;
      Some(m)
  }

  /** Cleaning distributes over concatenation, so kept rows stay in book order. */
  lemma {:induction false} CleanedAppend(a: seq<Row>, b: seq<Row>)
    ensures Cleaned(a + b) == Cleaned(a) + Cleaned(b)
  {
    if b == [] {
      assert a + b == a;
    } else {
      assert (a + b)[..|a + b| - 1] == a + b[..|b| - 1];
      CleanedAppend(a, b[..|b| - 1]);
    }
  }

  /** Every cleaned level comes from a row with at least two elements, and every such row is kept. */
  lemma {:induction false} CleanedKeepsExactlyLongRows(rows: seq<Row>)
    ensures forall l :: l in Cleaned(rows) ==>
      exists i :: 0 <= i < |rows| && |rows[i]| >= 2 && l == Level(rows[i][0], rows[i][1])
    ensures forall i :: 0 <= i < |rows| && |rows[i]| >= 2 ==> Level(rows[i][0], rows[i][1]) in Cleaned(rows)
  {
    if rows != [] {
      var init := rows[..|rows| - 1];
      CleanedKeepsExactlyLongRows(init);
      forall l | l in Cleaned(rows)
        ensures exists i :: 0 <= i < |rows| && |rows[i]| >= 2 && l == Level(rows[i][0], rows[i][1])
      {
        if l in Cleaned(init) {
          var i :| 0 <= i < |init| && |init[i]| >= 2 && l == Level(init[i][0], init[i][1]);
          assert rows[i] == init[i];
        } else {
          assert l in Keep(rows[|rows| - 1]);
        }
      }
      forall i | 0 <= i < |rows| && |rows[i]| >= 2
        ensures Level(rows[i][0], rows[i][1]) in Cleaned(rows)
      {
        if i < |rows| - 1 {
          assert rows[i] == init[i];
        }
      }
    }
  }

  /** The cleaning loop of lines 12-16 (and 18-22): append (price, size) of each row of length >= 2. */
  method CleanSide(rows: seq<Row>) returns (clean: seq<Level>)
    ensures clean == Cleaned(rows)
  {
    clean := [];
    for i := 0 to |rows|
      invariant clean == Cleaned(rows[..i])
    {
      assert rows[..i + 1][..i] == rows[..i];
      var item := rows[i];
      if |item| >= 2 {
        var price, size := item[0], item[1];
        clean := clean + [Level(price, size)];
      }
    }
    assert rows[..|rows|] == rows;
  }

  method BuildLiquidityMap(book: OrderBook) returns (m: LiquidityMap)
    ensures m.bids == Cleaned(book.bids) && m.asks == Cleaned(book.asks)
    ensures |m.bids| <= |book.bids| && |m.asks| <= |book.asks|
    ensures m.support == LowestPrice(m.bids) && m.resistance == HighestPrice(m.asks)
    ensures m.totalBidLiquidity == Sum(Sizes(m.bids)) && m.totalAskLiquidity == Sum(Sizes(m.asks))
  {
    var cleanBids := CleanSide(book.bids);
    var cleanAsks := CleanSide(book.asks);
    CleanedKeepsExactlyLongRows(book.bids);
    CleanedKeepsExactlyLongRows(book.asks);
    m := LiquidityMap(
      LowestPrice(cleanBids),
      HighestPrice(cleanAsks),
      Sum(Sizes(cleanBids)),
      Sum(Sizes(cleanAsks)),
      cleanBids,
      cleanAsks);
  }

  /** An empty side totals 0. */
  lemma EmptySideTotalsZero(levels: seq<Level>)
    requires levels == []
    ensures Sum(Sizes(levels)) == 0.0 && LowestPrice(levels).None? && HighestPrice(levels).None?
  {
  }

  /** When no bid is priced above any ask, support is at most resistance. */
  lemma SupportAtMostResistance(bids: seq<Level>, asks: seq<Level>)
    requires bids != [] && asks != []
    requires forall i, j :: 0 <= i < |bids| && 0 <= j < |asks| ==> bids[i].price <= asks[j].price
    ensures LowestPrice(bids).value <= HighestPrice(asks).value
  {
    assert LowestPrice(bids).value <= bids[0].price <= asks[0].price <= HighestPrice(asks).value;
  }
}
