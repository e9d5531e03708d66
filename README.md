# Pullback signal engine — a Dafny model

This project models the signal engine of a stock-screening tool (`analyze_strategy` in
`strategy_analysis.py`). The engine takes an ordered series of OHLCV bars and adds moving-average
and slope columns to it: EMA(`ema_period`), SMA(`ma_long_period`) and SMA(p) for each mid period,
all over `close`. It then returns one boolean per bar. A bar signals when three conditions hold:

1. **Parallelism.** The EMA and long-MA slopes differ by less than `tolerance`.
2. **Positive momentum.** Every slope (EMA, long MA, each mid MA) is strictly positive.
3. **Pullback.** Take the window of the `compression_period` bars before bar `i`. Bar `i` opens
   below the previous close discounted by `compression_threshold`, and below the window's highest high.

The model keeps the source's form:

- **The frame is a class.** `Frame.Frame` has fixed rows and a map of derived columns keyed by
  name. `AnalyzeStrategy` adds the `EMA<p>`, `MA<p>` and `<col>_slope` columns in place, in the
  source's order.
- **Condition 2 is a loop.** The `&=` loop becomes the method `Conditions.Condition2`.
- **Condition 3 is a loop over an array.** The pullback scan is `Pullback.FindPullbackBreakout`. It
  pre-fills a `bool` array with `false` and writes index `i` in a loop starting at `period`.
- **Pure parts are functions.** The averages, the slopes, condition 1 and the conjunction are
  functions over sequences.

Each imperative member is proved against a reference definition: `SmaAt`, `SlopeAt`, `PullbackAt`
and `SignalAt`. Separate lemmas prove properties of those definitions: warm-up, null propagation,
causality and the two scenarios.

Conventions:
- **Prices** are exact `real`s.
- **Timestamps** are whole seconds (`int`).
- **Indicator cells** are `Option<real>`. An undefined cell, NaN in pandas, makes every comparison
  on it false.
- **The EMA column** comes from an external indicator library. It is an opaque input column:
  the model does not fix its seeding rule.
- **The SMA** is the trailing mean, as that library computes it. It is undefined before bar
  `w - 1`.

Choices the code makes that a reader might not expect:
- **No parameter validation.** The code performs none. Window lengths must be positive (a zero
  pullback window would crash on an empty window); these are preconditions.
- **Any number of mid periods.** The mid periods are a sequence of any length, not exactly three,
  because the code simply iterates over the tuple.
- **Truncation.** A weaker form of the no-lookahead property is sometimes stated: truncating the
  series to `k` bars keeps the signals below `k - compression_period`. The model proves the
  stronger form, `SignalPrefix`: every signal before `k` is kept, provided the truncated run's EMA
  column is the prefix of the full one.

## Model

| member | source | states |
|---|---|---|
| `Indicators.SmaDefined` | strategy_analysis.py:12 | the SMA of order `w` is defined exactly from bar `w - 1` on, and then `w` times it is the sum of the last `w` closes |
| `Indicators.SlideSum` | strategy_analysis.py:12 | the trailing-window sum at bar `i` is the sum at `i - 1` plus the entering close minus the leaving close |
| `Indicators.SmaStep` | strategy_analysis.py:12 | between consecutive defined bars the SMA moves by (entering close − leaving close) / w |
| `Indicators.SmaRisesIff` | strategy_analysis.py:12 | the SMA rises at bar `i` if and only if `close[i] > close[i - w]` |
| `Indicators.SlopeDefined` | strategy_analysis.py:21 | a slope exists exactly at bars `i > 0` whose average and predecessor both exist |
| `Indicators.SlopeSign` | strategy_analysis.py:21 | slope × elapsed seconds equals the first difference; with increasing timestamps the slope is positive (negative) iff the average rose (fell) |
| `Indicators.SmaSlopeDefined` | strategy_analysis.py:12-21 | the slope of `MA<w>` is defined exactly from bar `w` on |
| `Indicators.SmaSlopePositiveIff` | strategy_analysis.py:12-21 | past the warm-up, the slope of `MA<w>` is positive iff the entering close exceeds the leaving close |
| `Indicators.SmaCausal` | strategy_analysis.py:12 | the SMA at bar `i` is unchanged when the series is cut after `i` |
| `Indicators.SlopeCausal` | strategy_analysis.py:21 | the slope at bar `i` depends only on the averages and timestamps of bars `i - 1` and `i` |
| `Pullback.MaxHigh` | strategy_analysis.py:42 | the window maximum is at least every high in the window and equals one of them |
| `Pullback.BelowMaxIff` | strategy_analysis.py:42-52 | a price is below the window maximum iff it is below some bar's high in the window |
| `Pullback.BelowWindowHighIffMax` | strategy_analysis.py:38-52 | the reference form of the second breakout test (open below some high of bars `[i - period, i)`) agrees with the scan's comparison against `previous_high`, the window maximum |
| `Pullback.FindPullbackBreakout` | strategy_analysis.py:33-63 | the result has one entry per bar; entry `i` is true iff `period <= i`, `open[i] < close[i-1]·(1 − threshold)` and `open[i]` is below some high of bars `[i - period, i)`; every entry below `period` stays false |
| `Pullback.PullbackCausal` | strategy_analysis.py:38-39 | condition 3 at bar `i` depends only on bars `i - period .. i`; bars before the window and after `i` do not affect it |
| `Pullback.DropImpliesBelowHigh` | strategy_analysis.py:51-52 | with a non-negative threshold and a previous bar with `0 <= close <= high`, the price-drop test alone decides condition 3 |
| `Pullback.OpenAtPreviousCloseNoPullback` | strategy_analysis.py:51 | a bar opening at a non-negative previous close never passes condition 3 for a non-negative threshold |
| `Properties.Condition1Warmup` | strategy_analysis.py:21-25 | condition 1 can hold at bar `i` only if `i > 0`, `i >= ma_long_period` and the EMA is defined at `i - 1` and `i`: an undefined slope makes the comparison false |
| `Properties.ParallelSlopes` | strategy_analysis.py:21-25 | two slopes over the same bar step are within the tolerance iff the columns' first differences differ by less than the tolerance times the seconds elapsed since the previous bar |
| `Conditions.Condition2` | strategy_analysis.py:28-30 | condition 2 holds at bar `i` iff the EMA slope, the long-MA slope and every mid-MA slope exist and are strictly positive |
| `Frame.Digits` | strategy_analysis.py:11-21 | the decimal rendering of a period in column names has exactly one character iff the period is below 10, and ends in the digit of `n % 10` |
| `Frame.DigitsInjective` | strategy_analysis.py:11-21 | different periods render to different digit strings |
| `Frame.ColumnNameInjective` | strategy_analysis.py:11-21 | distinct derived columns (`EMA<p>`, `MA<p>`, `<col>_slope`) have distinct names, so a later assignment never overwrites a different indicator |
| `Frame.Frame.SetColumn` | strategy_analysis.py:11 | storing a column aligned with the rows adds or replaces exactly that name; all columns stay aligned |
| `Strategy.ColumnValue` | strategy_analysis.py:11-21 | every derived column has one entry per row |
| `Strategy.StoreOne` | strategy_analysis.py:11-21 | storing a column keeps every earlier derived column in place, because names are unique |
| `Strategy.AddAverages` | strategy_analysis.py:11-16 | after the averages are stored, `EMA<ema_period>` holds the EMA and each `MA<w>` holds the SMA of order `w`; other columns are unchanged |
| `Strategy.AddSlope` | strategy_analysis.py:21 | stores `<col>_slope` as the slope of the stored `<col>` and changes nothing else |
| `Strategy.AddSlopes` | strategy_analysis.py:19-21 | after the slope loop, every averaged column's slope is stored under `<col>_slope`; only those names change |
| `Strategy.StoredSlopes` | strategy_analysis.py:24-30 | the slope columns the conditions read are the slopes of the EMA and of each SMA |
| `Strategy.Signals` | strategy_analysis.py:24-68 | given the stored slope columns, entry `i` of the result is true iff conditions 1, 2 and 3, each in its reference form (`Condition1At`, `Condition2At`, `PullbackAt`), all hold at bar `i` |
| `Strategy.AnalyzeStrategy` | strategy_analysis.py:8-70 | the frame gains exactly the derived columns, each with its defined content, and other columns are unchanged; the signal has one entry per bar, and entry `i` is condition 1 ∧ condition 2 ∧ condition 3 at `i` |
| `Properties.SignalWarmup` | strategy_analysis.py:21-36 | a signal at bar `i` needs `i >= compression_period`, `i >= ma_long_period`, `i >=` every mid period, `i > 0` and a defined EMA at `i - 1` and `i` |
| `Properties.ShortSeriesNoSignal` | strategy_analysis.py:34-36 | a series no longer than the pullback, long or a mid window (or the EMA window, when the EMA is undefined during its warm-up) yields an all-false signal |
| `Properties.SignalPrefix` | strategy_analysis.py:11-68 | re-running on the first `k` bars, with the first `k` cells of the EMA column, reproduces every signal before `k` |
| `Properties.SignalCausal` | strategy_analysis.py:11-68 | two series that agree up to bar `i`, and on the EMA column up to `i`, agree on the signal at `i` |
| `Properties.OpenAtCloseNoSignal` | strategy_analysis.py:51-62 | in a series where each bar opens at the non-negative previous close (the steady uptrend), condition 3 is false at every bar, so no bar signals, for a non-negative threshold |
| `Properties.DefaultWarmup` | strategy_analysis.py:8-9 | the default parameters are valid, and with them no bar before index 111 signals |
| `Properties.RisingClosesPositiveMaSlope` | strategy_analysis.py:12-21 | with strictly rising closes every SMA slope is positive from bar `w` on |
| `Properties.EngineeredPullback` | strategy_analysis.py:51-62 | a bar opening at 80% of a positive previous close, at or below that bar's high, passes condition 3 at a 5% threshold; its signal is then conditions 1 and 2 |

## Left out

- **EMA.** The exponential average comes from an external indicator library whose seeding and
  missing-value policy are not part of this model. It enters as the opaque column `ema`, one cell
  per bar. `ema_period` therefore only names that column; it bounds the warm-up only under the
  hypothesis stated in `ShortSeriesNoSignal`.
- SignalPrefix: the truncated run's EMA column is taken to be the prefix of the full one. The EMA
  library is not modelled, so the model does not show that the EMA at a bar is unaffected by later
  bars; `SignalCausal` likewise assumes the two EMA columns agree up to `i`.
- **Float arithmetic.** Prices, averages and slopes are exact reals, and do not round as binary
  floats do. NaN in the price columns is not modelled.
- **Timestamp conversion.** Timestamps are whole seconds; the model does not convert a pandas
  datetime index to seconds.
- `AnalyzeStrategy`: requires strictly increasing timestamps, as the data source provides them.
  With two equal consecutive timestamps the source divides by a zero time step, and the model does
  not represent the resulting ±inf or NaN slope.
- **Unused code.** The unused `high_idx`, the commented-out EMA-touch and MA-band conditions, and the
  unused plotting imports in `strategy_analysis.py` are not modelled.
- **Pandas alignment.** The engine returns the frame and the signal series as two co-indexed
  pandas objects. The model represents that index only by position (one entry per bar).
- **The rest of the repository.** The dashboard, data fetching, CSV caching and the date-range
  lookup tables (`app.py`, `data_collector.py`) are not part of this model.
