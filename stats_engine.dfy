/** calculate_stats: win rate and expectancy over the pnl log, folded over its decoded records. */
module StatsEngine {
  import opened Wrappers
  import opened Numeric
  import opened PnlRecords

  /** The dictionary calculate_stats returns. */
  datatype Stats = Stats(winrate: real, expectancy: real, trades: nat)

  /** The loop's counters. */
  datatype Counters = Counters(wins: nat, losses: nat, total: nat, profit: real, loss: real)

  /** Number of records with a positive pnl. */
  function WinCount(records: seq<PnlRecord>): (n: nat)
    ensures n <= |records|
  {
    if records == [] then 0
    else WinCount(records[..|records| - 1]) + (if IsWin(records[|records| - 1]) then 1 else 0)
  }

  /** Sum of all pnls, a missing pnl counting 0. */
  function PnlSum(records: seq<PnlRecord>): real
  {
    if records == [] then 0.0 else PnlSum(records[..|records| - 1]) + Pnl(records[|records| - 1])
  }

  /** One loop iteration (lines 13-21). */
  function Step(c: Counters, r: PnlRecord): (next: Counters)
    ensures next.total == c.total + 1
    ensures next.wins == (if IsWin(r) then c.wins + 1 else c.wins)
    ensures next.wins + next.losses == c.wins + c.losses + 1
    ensures c.profit <= next.profit && c.loss <= next.loss
    ensures next.profit - next.loss == c.profit - c.loss + Pnl(r)
  {
    var pnl := Pnl(r);
    if pnl > 0.0 then c.(total := c.total + 1, wins := c.wins + 1, profit := c.profit + pnl)
    else c.(total := c.total + 1, losses := c.losses + 1, loss := c.loss + Abs(pnl))
  }

  /** The counters after the loop has seen `records`. */
  function Tally(records: seq<PnlRecord>): (c: Counters)
    ensures c.total == |records| && c.wins + c.losses == c.total
    ensures c.wins == WinCount(records)
    ensures c.profit >= 0.0 && c.loss >= 0.0
    ensures c.profit - c.loss == PnlSum(records)
  {
    if records == [] then Counters(0, 0, 0, 0.0, 0.0)
    else Step(Tally(records[..|records| - 1]), records[|records| - 1])
  }

  method CalculateStats(records: seq<PnlRecord>) returns (stats: Option<Stats>)
    ensures stats.None? <==> records == []
    ensures stats.Some? ==> stats.value.trades == |records|
    ensures stats.Some? ==> stats.value.winrate == Round2(WinCount(records) as real / |records| as real * 100.0)
    ensures stats.Some? ==> stats.value.expectancy == Round2(PnlSum(records) / |records| as real)
    ensures stats.Some? ==> 0.0 <= stats.value.winrate <= 100.0
  {
    var wins, losses, total := 0, 0, 0;
    var profit, loss := 0.0, 0.0;
    for i := 0 to |records|
      invariant Counters(wins, losses, total, profit, loss) == Tally(records[..i])
    {
      assert records[..i + 1][..i] == records[..i];
      var pnl := records[i].pnl.GetOr(0.0);
      total := total + 1;
      if pnl > 0.0 {
        wins := wins + 1;
        profit := profit + pnl;
      } else {
        losses := losses + 1;
        loss := loss + Abs(pnl);
      }
    }
    assert records[..|records|] == records;
    if total == 0 {
      return None;
    }
    var rate := wins as real / total as real * 100.0;
    WinRateBounds(wins, total);
    Round2Within(rate, 0, 10000);
    stats := Some(Stats(Round2(rate), Round2((profit - loss) / total as real), total));
  }

  /** Before rounding the win rate is a percentage. */
  lemma WinRateBounds(wins: nat, total: nat)
    requires 0 < total && wins <= total
    ensures 0.0 <= wins as real / total as real * 100.0 <= 100.0
  {
    assert wins as real / total as real <= 1.0;
  }
}
