# Signal analytics of a crypto-futures signal bot, in Dafny

This project models the signal-analytics modules of a Python trading bot. Each module is a
standalone function, or a small helper holding module-level state, over order books, trades,
candles, macro readings and pnl records passed in as arguments. `smart_score` takes the results
of the detectors as boolean or numeric arguments. Nothing in the repository calls these modules
or wires them together: the entry point only serves a status route, fetches one price and posts it to Telegram. Every
function of the modules listed below is modelled here, one Dafny module per Python file:

- the liquidity map of an order book (`Liquidity`);
- order-flow delta (`OrderFlow`);
- the per-symbol Asia range tracker (`RangeTracker`);
- break-and-retest (`BreakRetest`), stop hunts (`StopHunt`), consolidation (`Consolidation`) and false breakouts (`FalseBreakout`);
- the macro score (`Macro`), open-interest divergence (`OpenInterestDivergence`), options max pain (`OptionsMaxPain`) and the ETF lag bias (`EtfLag`);
- the adaptive weight (`AdaptiveWeights`) and the composite score (`ScoreEngine`);
- trading sessions (`SessionFilter`) and kill zones (`KillZones`);
- the trade plan (`RiskEngine`) and the three-loss guard (`CapitalGuard`);
- SMT divergence (`SmtDivergence`), the higher-timeframe bias (`HtfBias`) and the ATR volatility filter (`VolatilityFilter`);
- the win-rate and expectancy statistics (`StatsEngine`) and the per-session win rates (`SessionStats`).

Shared pieces:

- `Wrappers`:
  - `Option` stands for Python's `None` and for an absent dictionary key.
  - `Result` stands for the exceptions the code can raise: `TypeError`, `ValueError` and `ZeroDivisionError`.
- `Numeric`: sums, minima, maxima and means of `seq<real>`. It also holds `Round2`, which models Python's `round(x, 2)` as round-half-to-even at two decimals.
- `BoundedDeque`: models `collections.deque(maxlen=n)` as the function `Last(s, n)` of the whole append history.
- `Candles` and `PnlRecords`: the candle rows and the decoded pnl-log records.

Module-level mutable state becomes a class:

- the `asia_range` defaultdict is `RangeTracker.AsiaRange`;
- the ETF deque is `EtfLag.EtfHistory`;
- the loss deque is `CapitalGuard.LossGuard`.

Each class keeps a ghost history of everything it was fed. Its `Valid()` ties the stored
state to a function of that history.

The loops of `build_liquidity_map`, `calculate_delta`, `atr`, `calculate_stats` and
`session_winrate` are methods with loop invariants. Each is proved equal to a specification
function, and the properties are proved about those functions. That function is recursive for
every loop but the second loop of `session_winrate` (`SessionStats.WinRates`), which is proved
equal to a map comprehension over the recursive `SessionStats.Tally`.

The model follows the code, also where the module names suggest more:

- break-and-retest is one stateless predicate: it keeps no break/retest state and counts no confirmations;
- the stop-hunt test is a delta threshold of 1000 against 0.2% bands around support and resistance;
- support is simply the lowest bid and resistance the highest ask, whatever the sizes;
- an empty side of the book leaves support or resistance as `None`, and the detectors that compare against it raise `TypeError`;
- a trade whose side is present but not "buy" counts as a sell;
- the composite score is not clamped; it ranges over [-45, 110];
- the adaptive weight is a separate function and is never applied to the score;
- no module keeps a signal cooldown or compares the score against a gate.

## Model

| member | source | states |
|---|---|---|
| Liquidity.Cleaned | liquidity_map.py:12-22 | the cleaned side never has more levels than the book side has rows |
| Liquidity.CleanSide | liquidity_map.py:12-22 | the cleaning loop returns exactly `Cleaned(rows)`: the rows with at least two elements, as (price, size), in order |
| Liquidity.CleanedKeepsExactlyLongRows | liquidity_map.py:13-16 | a level is kept iff it comes from a row of length >= 2, with that row's first two values |
| Liquidity.CleanedAppend | liquidity_map.py:13-16 | cleaning distributes over concatenation, so the original order of the kept rows is preserved |
| Liquidity.LowestPrice | liquidity_map.py:25 | `min(..., default=None)`: None iff there are no levels, else a price of some level that is <= every level's price |
| Liquidity.HighestPrice | liquidity_map.py:26 | `max(..., default=None)`: None iff there are no levels, else a price of some level that is >= every level's price |
| Liquidity.BuildLiquidityMap | liquidity_map.py:1-39 | bids and asks are the cleaned sides, support is the lowest cleaned bid, resistance the highest cleaned ask, and the totals are the sums of the cleaned sizes |
| Liquidity.EmptySideTotalsZero | liquidity_map.py:25-30 | an empty side has no support or resistance and a total liquidity of 0 |
| Liquidity.SupportAtMostResistance | liquidity_map.py:25-26 | when every bid is at most every ask, support <= resistance |
| OrderFlow.CalculateDelta | orderflow.py:1-12 | the loop's delta equals `Delta(trades)`, the signed sum of sizes; no trades give 0 |
| OrderFlow.SignedTrade | orderflow.py:8-10 | a missing size counts 0, a missing side counts as "buy", and any other side subtracts the size |
| OrderFlow.DeltaAppend | orderflow.py:7-10 | the delta of a concatenation is the sum of the deltas |
| OrderFlow.Delta | orderflow.py:6-10 | the signed sum of sizes; \|delta\| never exceeds the total absolute traded size |
| OrderFlow.AllBuysDelta | orderflow.py:9-10 | when every trade is a buy, the delta is the plain sum of sizes |
| RangeTracker.AsiaRange.constructor | range_tracker.py:3 | the tracker starts with no entries |
| RangeTracker.AsiaRange.UpdateAsiaRange | range_tracker.py:5-11 | after feeding a price, the symbol's entry holds the max and min of every price fed for it (so low <= price <= high, and the first price sets both), the range only widens, and other symbols are unchanged |
| RangeTracker.AsiaRange.ExtendExtremes | range_tracker.py:8-11 | the max and min of a history plus one price are the old extremes pushed out by that price |
| RangeTracker.AsiaRange.GetAsiaRange | range_tracker.py:13-14 | None iff the symbol was never updated; otherwise low <= high, both are prices that were fed, and they bound every fed price |
| StopHunt.DetectStopHunt | stop_hunt.py:1-18 | a long hunt iff delta > 1000 and price < support * 1.002; a short hunt iff delta < -1000 and price > resistance * 0.998; the strength is \|delta\|/100 > 10; TypeError iff the level needed is missing; no hunt when \|delta\| <= 1000 |
| BreakRetest.DetectBreakRetest | break_retest.py:1-15 | False without a range or with a missing or zero level; True only strictly above the high for "LONG" and strictly below the low otherwise |
| BreakRetest.LongDetection | break_retest.py:8-13 | for "LONG" and a positive high: detected iff high < price < high * (1 + tolerance) |
| BreakRetest.DefaultLongBand | break_retest.py:1 | with the default tolerance 0.001, a "LONG" retest is exactly high < price < high * 1.001 |
| BreakRetest.ShortDetection | break_retest.py:8-15 | for any other direction and a positive low: detected iff low * (1 - tolerance) < price < low |
| Consolidation.PairPrices | consolidation.py:11-12 | prices are extracted iff every row is a pair, in order; otherwise ValueError |
| Consolidation.CheckConsolidation | consolidation.py:1-23 | an error iff a row is not a pair (ValueError) or the lowest bid is 0 (ZeroDivisionError); an empty side gives False |
| Consolidation.ConsolidationIsSpreadTest | consolidation.py:17-21 | on a well-formed two-sided book the answer is (max ask - min bid) / min bid * 100 <= range_percent |
| Consolidation.MonotoneInRangePercent | consolidation.py:20 | consolidating at one range_percent implies consolidating at every larger one |
| Consolidation.DefaultSpread | consolidation.py:1 | with the default range_percent 0.5 and a positive lowest bid, the book consolidates iff the highest ask is <= lowest bid * 1.005 |
| Consolidation.SizesIgnored | consolidation.py:11-12 | books with the same row shapes and prices get the same answer, whatever the sizes |
| FalseBreakout.FilterFalseBreakout | false_breakout.py:1-11 | False without a map, and False above resistance with selling; TypeError iff a comparison that is reached meets a missing level |
| FalseBreakout.PassIff | false_breakout.py:5-11 | with both levels present there is no error, and the filter passes iff neither "above resistance with selling" nor "below support with buying" holds |
| FalseBreakout.BelowSupportWithBuying | false_breakout.py:8-9 | below support with buying is rejected |
| FalseBreakout.InsideRangePasses | false_breakout.py:5-11 | every price in [support, resistance] passes, whatever the delta |
| FalseBreakout.ZeroDeltaPasses | false_breakout.py:5-11 | with zero delta every price passes |
| Macro.MacroScore | macro_score.py:1-22 | the score lies in [-25, 45] and is 0 when every input is missing |
| Macro.MacroScoreIsAdditive | macro_score.py:2-22 | the score is the sum of the scores of the four inputs taken one at a time |
| Macro.OpenInterestTerm | macro_score.py:4-5 | open interest alone gives +10 exactly when its change is positive |
| Macro.CrowdTerm | macro_score.py:7-11 | a long ratio > 0.55 gives -5; otherwise a short ratio > 0.55 gives +5; otherwise 0 |
| Macro.LiquidationTerm | macro_score.py:13-14 | liquidations alone give +10 exactly when the total exceeds 50,000,000 |
| Macro.EtfTerm | macro_score.py:16-20 | ETF flow alone gives +20 on inflow, -20 on outflow and 0 otherwise |
| OpenInterestDivergence.OiDivergence | oi_divergence.py:1-13 | +10 iff price up and open interest down, -10 iff both down, 0 otherwise |
| OptionsMaxPain.MaxPainBias | options_max_pain.py:1-16 | 0 without data or max pain; otherwise +10 iff the price is below max pain, -10 iff above, 0 iff equal |
| OptionsMaxPain.OppositeSides | options_max_pain.py:12-15 | prices on opposite sides of max pain get opposite biases (+10 and -10) |
| EtfLag.LagBias | etf_lag.py:14-23 | the bias is one of -15, 0, +15 |
| EtfLag.EtfHistory.constructor | etf_lag.py:3 | the deque starts empty |
| EtfLag.EtfHistory.EtfLagBias | etf_lag.py:5-23 | None leaves the deque as it was and gives 0; otherwise the deque becomes the last three flows and the bias is the sign of their mean (0 below two flows) |
| EtfLag.SignOfAverage | etf_lag.py:17-22 | the average has the sign of the sum |
| EtfLag.FirstFlowIsNeutral | etf_lag.py:12-15 | the first flow ever received gives no bias |
| AdaptiveWeights.AdaptiveWeight | adaptive_weights.py:1-8 | 1.0 for None; 1.2 iff the win rate is > 60, 0.8 iff < 40, 1.0 iff within [40, 60] |
| AdaptiveWeights.WeightMonotone | adaptive_weights.py:4-8 | a higher win rate never gets a smaller weight |
| ScoreEngine.Clamp | score_engine.py:1-2 | the result lies in [min, max], is the value itself inside the interval and saturates outside it |
| ScoreEngine.FlowTerm | score_engine.py:18 | the order-flow term lies in [0, 25] |
| ScoreEngine.OiTerm | score_engine.py:24 | the open-interest term lies in [0, 15] and is 0 for non-positive open interest |
| ScoreEngine.SmartScore | score_engine.py:4-26 | the score lies in [-45, 110] and within half a cent of the unrounded sum |
| ScoreEngine.RawScore | score_engine.py:13-24 | the unrounded sum lies in [-45, 110] |
| ScoreEngine.RawScoreExtremes | score_engine.py:13-24 | both ends of [-45, 110] are reached |
| ScoreEngine.FlowTermSymmetric | score_engine.py:18 | buying and selling delta of the same size score the same |
| ScoreEngine.FlagEffects | score_engine.py:15-22 | turning on kill_zone, br, liquidity or stop_hunt adds 30, 40, 25 or 10; consolidation subtracts 10 |
| ScoreEngine.FlagsMoveSmartScore | score_engine.py:15-26 | after rounding, each of those four flags still strictly raises the score and consolidation strictly lowers it |
| SessionFilter.ActiveSession | session_filter.py:3-20 | "Asia" iff hour 0-6, "London" iff 7-11, "New York" iff 13-17, None otherwise |
| SessionFilter.NoSessionHours | session_filter.py:13-20 | hour 12 and hours 18-23 have no session |
| KillZones.GetKillZone | kill_zones.py:3-16 | "Asia Range" iff hour 0-6, "London Open" iff 7-9, "New York Open" iff 13-15, None otherwise |
| KillZones.KillZoneInsideSession | kill_zones.py:9-14 | every kill zone lies inside the session of the same hour |
| RiskEngine.StopAndTarget | risk_engine.py:2-7 | for a positive distance and rr, "LONG" gives sl < price < tp and other directions tp < price < sl; the stop is \|sl_distance\| away, and the target is rr times as far |
| RiskEngine.BuildTrade | risk_engine.py:1-15 | entry, risk_pct and rr are passed through; sl and tp1 are within half a cent of the unrounded levels |
| RiskEngine.DefaultPlan | risk_engine.py:1-15 | with the defaults rr = 3 and risk_pct = 0.5, tp1 is within half a cent of three stop distances from the entry |
| RiskEngine.RoundedLevelsOrdered | risk_engine.py:2-12 | rounding keeps the stop and the target on their sides of the rounded entry |
| CapitalGuard.Allowed | capital_guard.py:9-11 | trading is allowed iff the deque holds fewer than three results or one of them is positive |
| CapitalGuard.LossGuard.constructor | capital_guard.py:3 | the deque starts empty |
| CapitalGuard.LossGuard.UpdatePnl | capital_guard.py:5-6 | the deque becomes the old deque with the result appended and the oldest dropped beyond three; the history grows by the result |
| CapitalGuard.LossGuard.TradingAllowed | capital_guard.py:8-11 | allowed while fewer than three results have been seen; afterwards, allowed iff one of the last three results is positive |
| CapitalGuard.PositivePnlAllowsTrading | capital_guard.py:5-11 | a positive result keeps trading allowed after its own update and the next two |
| SmtDivergence.DetectSmt | smt_divergence.py:1-18 | "BEARISH" iff BTC's last five candles hold a high above the second-to-last high while ETH's do not; otherwise "BULLISH" iff the same holds on lows; otherwise None |
| SmtDivergence.Classify | smt_divergence.py:12-18 | on two windows: "BEARISH" iff BTC makes a new high and ETH does not; otherwise "BULLISH" iff BTC makes a new low and ETH does not; otherwise None |
| SmtDivergence.HigherHigh | smt_divergence.py:12 | `max(highs) > highs[-2]` holds iff some candle of the window has a high above the second-to-last high |
| SmtDivergence.LowerLow | smt_divergence.py:15 | `min(lows) < lows[-2]` holds iff some candle of the window has a low below the second-to-last low |
| SmtDivergence.EthNoHigherHigh | smt_divergence.py:12 | "ETH makes no higher high" means its second-to-last high is the window's maximum |
| SmtDivergence.OlderCandlesIgnored | smt_divergence.py:7-10 | candles older than the last five do not change the result |
| HtfBias.GetHtfBias | htf_bias.py:7-19 | "BULLISH" iff the last close is above the midpoint of the highest high and the lowest low, "BEARISH" iff below, "NEUTRAL" iff equal |
| HtfBias.Mid | htf_bias.py:11-13 | the midpoint lies between the lowest low and the highest high |
| HtfBias.CloseBeyondRange | htf_bias.py:7-18 | a close above every high is bullish; a close below every low is bearish |
| VolatilityFilter.TrueRange | volatility_filter.py:6-9 | the true range is the largest of high - low, \|high - prev close\| and \|low - prev close\|, hence non-negative |
| VolatilityFilter.TrueRanges | volatility_filter.py:4-10 | one true range per candle after the first, each against the previous close |
| VolatilityFilter.Atr | volatility_filter.py:3-11 | the loop computes the mean of the last `period` true ranges, which is non-negative |
| VolatilityFilter.AverageTrueRange | volatility_filter.py:9-11 | the mean of the last `period` true ranges is never negative |
| VolatilityFilter.DefaultRatio | volatility_filter.py:13-16 | with the default min_ratio 0.002 and a positive last close, the filter passes iff ATR(14) >= 0.002 * close |
| VolatilityFilter.VolatilityOk | volatility_filter.py:13-16 | true iff ATR(14) / last close >= min_ratio |
| StatsEngine.Step | stats_engine.py:13-21 | one record adds 1 to total, 1 to wins exactly for a positive pnl, never lowers profit or loss, and moves profit - loss by the pnl |
| StatsEngine.Tally | stats_engine.py:6-21 | after the loop: total is the record count, wins + losses = total, wins counts positive pnls, profit and loss are non-negative and profit - loss is the pnl sum |
| StatsEngine.CalculateStats | stats_engine.py:5-35 | None iff there are no records; otherwise the win rate is the rounded share of positive pnls (within [0, 100]), the expectancy is the rounded mean pnl, and trades is the count |
| StatsEngine.WinRateBounds | stats_engine.py:28 | wins / total * 100 lies in [0, 100] |
| SessionStats.SessionWins | session_stats.py:19-21 | a session never has more wins than records |
| SessionStats.Count | session_stats.py:13-21 | a record without a session changes nothing; otherwise only its session's entry changes, created if needed, with total + 1 and wins + 1 exactly for a positive pnl |
| SessionStats.Tally | session_stats.py:11-21 | with no record carrying a session, the result is empty |
| SessionStats.TallyCounts | session_stats.py:7-21 | a session has an entry iff it has a record; its total counts its records and its wins count its positive pnls |
| SessionStats.CountSessions | session_stats.py:7-21 | the counting loop builds exactly `Tally(records)`; a missing or empty session is skipped |
| SessionStats.WinRate | session_stats.py:28 | a session's rounded win rate lies in [0, 100] |
| SessionStats.WinRates | session_stats.py:25-28 | a rate exists exactly for the sessions with a positive total, and each is that session's rounded win rate |
| SessionStats.SessionWinrate | session_stats.py:6-30 | a session is in the result iff it has a record, and its value is round(wins / total * 100, 2) in [0, 100] |
| SessionStats.TotalsAddUp | session_stats.py:16-19 | the per-session totals add up to the number of records that have a session |
| Numeric.Round2 | score_engine.py:26 | `round(x, 2)` is within half a cent of x |
| Numeric.Round2Monotone | risk_engine.py:11-12 | rounding to cents is monotone |
| BoundedDeque.Append | capital_guard.py:3-6 | appending to a deque of maxlen n keeps the last n elements of the old contents plus the new one |
| BoundedDeque.AppendKeepsLast | etf_lag.py:3-12 | when the deque holds the last n items of a history, after an append it holds the last n of the extended history |

## Left out

- Numbers are exact reals. Binary floating point, and its rounding in sums and divisions, is not modelled.
- Numeric.Round2: the rounding is to exact decimals, half to even. Python's `round` on a binary float can land on the other side of an exact tie.
- `float()` conversion of the order-book and trade strings is not modelled: prices and sizes arrive as numbers. Unparsable strings (a `ValueError` in Python) are therefore not represented.
- The clock reads in `active_session` and `get_kill_zone` become an hour parameter.
- The exchange fetch in `get_htf_bias` is not modelled: the candles are a parameter. `htf_bias.py:3-6` is not part of this model.
- The pnl log file and its JSON decoding are not modelled: the statistics take the decoded records. A missing file gives the same result as an empty one (None and `{}`).
- A dictionary key that is present but holds `None` is not modelled. This covers `pnl`, `size`, `maxPain` and the macro fields. `Option.None` always means the key is absent, which `.get(key, default)` reads as the default. A present `None` would raise `TypeError` in the comparisons.
- A trade's `price` field is never read by the source, so it is not modelled. A non-string `side` is not modelled either.
- The `liquidity`, `levels`, `options_data` and macro arguments are `Option`s. A falsy argument (None or an empty dictionary) is `None`. A dictionary without its "support" or "resistance" key (a `KeyError`) is not modelled: a `LiquidityMap` always has its fields.
- RangeTracker.AsiaRange.UpdateAsiaRange: the defaultdict's transient `{"high": None, "low": None}` entry is modelled (`Unset`) but is never observable, since it is overwritten in the same call.
- VolatilityFilter.Atr: requires at least two candles and `period >= 1`. With fewer candles, numpy's mean of an empty list is NaN with a warning. Python's slice behaviour for `period <= 0` is not modelled.
- VolatilityFilter.VolatilityOk: requires a non-zero last close. In Python `a` is a numpy float, so dividing it by a zero close gives inf or nan with a RuntimeWarning, not an exception; the comparison is then decided by that inf or nan, which exact reals cannot represent.
- SmtDivergence.DetectSmt: requires at least two candles per list. With fewer, Python raises `ValueError` from `max` on an empty BTC list and `IndexError` on a one-candle BTC list. A short ETH list is reached only when BTC's test holds, because `and` short-circuits; otherwise the call returns None.
- HtfBias.GetHtfBias: requires a non-empty candle list. On an empty one Python raises `IndexError` at `candles[-1][4]`, before `max` and `min` run.
- Candles are records with named fields. A short row that `c[2]`, `c[3]` or `c[4]` would reject is not modelled.
- Consolidation: a three-element order-book row raises `ValueError` when unpacked as `price, size`. The liquidity map accepts such rows. Both behaviours are modelled as written.
- CapitalGuard.PositivePnlAllowsTrading: "allowed for the next calls" is read as: after the update carrying the positive result and after each of the two updates that follow.
- BreakRetest.DetectBreakRetest: it reads nothing but its arguments, so statelessness holds by construction and is not stated separately.
- The insertion order of the dictionary returned by `session_winrate` is not modelled: `SessionStats.SessionWinrate` returns a `map`. The aliasing of the live dictionary entry that `get_asia_range` returns is not modelled either: `RangeTracker.AsiaRange.GetAsiaRange` returns a value. No modelled function depends on either.
- The score-based per-session win rate in dashboard.py is outside this model.
- Concurrency is not modelled. The module-level deques and dictionary are classes, and their methods run one at a time.
- Outside this model: dashboard.py, database.py, coinglass_client.py, main.py, data_okx.py, data_bybit.py and pnl_tracker.py (I/O, HTTP, SQLite, Telegram, the web dashboard).
