# Breakout report model

A Dafny model of the computation behind the "Stock Trading Logic Tester"
(`app.py`). Given a daily price series for one ticker (date, volume, close), two
percentage thresholds T1 and T2 and a holding period H of at least one trading
day, the tool flags *breakout days* and reports each with its forward return:

- the 20-day average volume of day i is the mean of the volumes of days
  i-20 .. i-1. The series is shifted one day before the rolling mean, so day i
  never counts itself. The average is undefined (NaN) for the first 20 days;
- the daily change is `close[i] / close[i-1] - 1`, undefined on the first day;
- the forward return is `close[i+H] / close[i] - 1`, undefined for the last H days;
- day i is a breakout when `volume - (T1/100) * average > 0` and
  `change - T2/100 > 0`; a comparison with an undefined operand is false;
- the report keeps the breakout days, in date order, as rows
  (date, volume, close, return). The summary is the row count and the mean of
  the defined returns.

Modules:

- `Wrappers` (`wrappers.dfy`): `Option` (NaN is `None`) and `Result` (an
  exception is `Failure`).
- `Stats` (`stats.dfy`): `Sum` and `Mean` over exact reals, with bounds lemmas.
- `Breakouts` (`breakouts.dfy`): the per-day quantities as functions and the
  filter as `BreakoutDays`/`TradingReport`. It also holds the lemmas about the
  window, the boundary days, soundness, completeness and order. The imperative
  part is `GenerateTradingReport`. It fills one array per added column and then
  keeps the flagged rows, and it is proved equal to `TradingReport`. The average
  column is kept as a running window sum, the way a rolling mean is computed.
- `Scenarios` (`scenarios.dfy`): a 25-day series with one volume-and-price
  spike, proved to give exactly one report row.
- `Summaries` (`summary.dfy`): `generate_summary` as written, and the
  corrected summary (see Findings).
- `App` (`app.py`'s button handler, `app.dfy`): the date-range check, then the
  report and its summary, or the exception the summary raises on an empty fetch.

Dates are integers (day ordinals). Prices and volumes are `real`, so the
arithmetic is exact and there is no floating-point rounding.

## Model

| member | source | states |
|---|---|---|
| `Breakouts.AvgVolume` | app.py:35 | the lagged 20-day average is defined exactly from day 20 on |
| `Breakouts.AverageReadsOnlyPriorWindow` | app.py:35 | the average of day i depends only on the volumes of days i-20 .. i-1, never on day i's own volume |
| `Breakouts.AverageSlides` | app.py:35 | from one day to the next the average gains volume[i]/20 and loses volume[i-20]/20: the window is exactly the 20 preceding days |
| `Breakouts.AverageWithinWindowRange` | app.py:35 | the average lies between the smallest and largest volume of its window (a steady volume averages to itself) |
| `Breakouts.DailyChange` | app.py:40 | the daily change is defined from the second day on, and close[i] = close[i-1] * (1 + change) |
| `Breakouts.ForwardReturn` | app.py:36 | the forward return is defined exactly when i + H is inside the series, and close[i+H] = close[i] * (1 + return) |
| `Breakouts.LastDaysHaveNoReturn` | app.py:36 | each of the last H days has an undefined forward return |
| `Breakouts.OneDayHoldingUsesNextClose` | app.py:36 | with H = 1 the return uses the very next close |
| `Breakouts.VolumeSpike` | app.py:39 | an undefined (NaN) average makes the volume test false (that a flagged day's volume exceeds T1 percent of the average is stated by `BreakoutMeansVolumeAndPriceRise`) |
| `Breakouts.PriceJump` | app.py:40 | an undefined (NaN) change makes the price test false (that a flagged day's close exceeds the previous close raised by T2 percent is stated by `BreakoutMeansVolumeAndPriceRise`) |
| `Breakouts.IsBreakout` | app.py:38-41 | only a day with a full 20-day window can be flagged (the full meaning is in `BreakoutMeansVolumeAndPriceRise`, `ReportedDaysPassBothThresholds` and `QualifyingDaysAreReported`) |
| `Breakouts.ChangeAboveMeansCloseAbove` | app.py:40 | a daily change above t is the same as a close above the previous close raised by t |
| `Breakouts.BreakoutMeansVolumeAndPriceRise` | app.py:38-41 | a day is flagged exactly when it has a full window, its volume exceeds T1 percent of the average, and its close exceeds the previous close raised by T2 percent |
| `Breakouts.BreakoutDays` | app.py:38-43 | the selected indices are exactly the flagged days (sound and complete), strictly increasing |
| `Breakouts.Project` | app.py:45-47 | the report has one row per selected day, carrying that day's date, volume, close and forward return |
| `Breakouts.RowOf` | app.py:45-47 | a row carries its day's date, volume and close unchanged, and has a return exactly when H more trading days follow |
| `Breakouts.BreakoutsNeedFullWindows` | app.py:35-43 | there is at most one breakout per day that has a full window, so at most n - 20 of them |
| `Breakouts.ReportRows` | app.py:43-47 | the report has at most one row per day with a full window, and none for 20 days or fewer (which rows appear is stated by `ReportedDaysPassBothThresholds` and `QualifyingDaysAreReported`) |
| `Breakouts.TradingReport` | app.py:28-49 | an empty fetch gives the column-less frame; any other series gives a table of rows |
| `Breakouts.EarlyDaysNeverBreakOut` | app.py:35-41 | no day among the first 20 is a breakout |
| `Breakouts.ShortSeriesHasNoBreakouts` | app.py:35-43 | a series of 1 to 20 days gives a report with no rows |
| `Breakouts.ReportedDaysPassBothThresholds` | app.py:38-45 | every report row's source day has a full window and satisfies both strict inequalities |
| `Breakouts.QualifyingDaysAreReported` | app.py:38-45 | every day with a full window that satisfies both strict inequalities appears in the report |
| `Breakouts.ReportKeepsDateOrder` | app.py:43-47 | report rows are in strictly increasing date order, and each carries an input day's date, volume and close unchanged |
| `Breakouts.WindowSumStep` | app.py:35 | the running window sum gains day i and, once the window is full, loses day i-20 |
| `Breakouts.ReportGrows` | app.py:43-45 | scanning one more day appends that day's row exactly when it is flagged |
| `Breakouts.AverageVolumeColumn` | app.py:35 | fills the average column, equal at every index to `AvgVolume` |
| `Breakouts.ForwardReturnColumn` | app.py:36 | fills the return column, equal at every index to `ForwardReturn` |
| `Breakouts.BreakoutColumn` | app.py:38-41 | fills the flag column, equal at every index to `IsBreakout` |
| `Breakouts.KeepFlaggedRows` | app.py:43-47 | the rows kept from the flag and return columns are exactly the rows of the selected breakout days, in order, which is the report `TradingReport` gives |
| `Breakouts.GenerateTradingReport` | app.py:28-49 | the column-by-column computation returns exactly `TradingReport` |
| `Scenarios.SpikeSeries` | app.py:35-41 | the example series has 25 days, all with positive closes |
| `Scenarios.SpikeDayBreaksOut` | app.py:38-41 | on the example series, day 21 (volume 5000 against an average of 1000, close up 3%) is flagged |
| `Scenarios.OtherDaysDoNotBreakOut` | app.py:35-41 | on the example series, no other day is flagged |
| `Scenarios.SingleBreakoutDay` | app.py:38-43 | a series with a single flagged day selects exactly that day |
| `Scenarios.SpikeDayIsTheOnlyBreakoutDay` | app.py:38-43 | on the example series, the selection is day 21 alone |
| `Scenarios.SpikeReport` | app.py:35-47 | with T1 = 200, T2 = 2 and H = 2 the report is one row: (day 21, 5000, 103, 100/103 - 1) |
| `Stats.Mean` | app.py:59 | the mean is undefined exactly for no values, and otherwise mean times count equals the sum |
| `Stats.MeanWithinBounds` | app.py:59 | the mean of values within [lo, hi] is within [lo, hi] |
| `Summaries.DefinedReturns` | app.py:59 | there are no more defined returns than rows, and none exactly when every return is NaN |
| `Summaries.DefinedIndices` | app.py:59 | the indices of rows with a defined return are exactly those rows, in increasing order |
| `Summaries.DefinedReturnsFollowIndices` | app.py:59 | the averaged values are the returns read off those indices: each defined return counts once, in row order, NaN rows skipped |
| `Summaries.DefinedReturnsComeFromRows` | app.py:59 | every value averaged is some row's return (NaN is never averaged in) |
| `Summaries.DefinedReturnsCoverRows` | app.py:59 | every row's defined return is among the values averaged |
| `Summaries.AllReturnsDefined` | app.py:59 | when no return is NaN, the values averaged are all the rows' returns, in row order |
| `Summaries.AverageProfitIsMeanOfDefinedReturns` | app.py:59 | the average profit times the number of defined returns equals their sum |
| `Summaries.GenerateSummary` | app.py:57-60 | raises on the column-less frame; otherwise the count is the row count, and the average is undefined exactly when no row has a return |
| `Summaries.Summarize` | app.py:57-60 | gives (0, undefined) for the column-less frame, and otherwise the same summary as `GenerateSummary` |
| `Summaries.AverageProfitWithinReturns` | app.py:59 | when some return is defined, the average profit lies between the smallest and largest defined return |
| `Summaries.EmptyFetchSummaryRaises` | app.py:31-33 | an empty fetch makes the as-written summary fail on the missing Return column; the corrected one gives (0, undefined) |
| `Summaries.SummaryCountsBreakoutDays` | app.py:58 | the summary's day count is the number of breakout days |
| `App.ValidateInputs` | app.py:51-55 | inputs are rejected exactly when the start date is after the end date |
| `App.OnGenerateReport` | app.py:63-66 | a start date after the end date yields only the range error; with a valid range an empty fetch makes the summary raise on the column-less frame; otherwise the summary counts the report rows, which are the breakout days |
| `App.CorrectedSummaryCoversRaise` | app.py:63-66 | where the handler produces a summary the corrected one is the same, and where it raises the corrected one gives zero days and no average |

## Left out

- Streamlit widgets, the button, error and success messages, and the download button (app.py:6-15, 63-76) are UI. The handler is modelled as a function of its inputs.
- `get_historical_price` (app.py:17-26) is a yfinance download plus reshaping. The fetched series is a parameter, and an empty series stands for the "no data" case. The provider's filtering of the series by the date range is not modelled.
- The Open, High, Low and Ticker columns are not modelled: nothing in the computation reads them.
- CSV export, the file name and the summary sentence (app.py:60, 68, 72) are formatting. The summary is the pair (count, optional average).
- IEEE floating point: values are exact reals and NaN is `None`. Closes must be positive (`PositiveCloses`), so pandas' results for a zero close (inf or NaN) are not modelled.
- The `historical_data is None` test (app.py:31) is not modelled: the fetch never returns None.
- In-place column assignment on the DataFrame: each added column is a fresh array, and the rename and index reset are folded into the report row type.
- Idempotence of regeneration is not stated as a lemma: the model is made of pure functions, and the methods allocate only fresh arrays.
- The documented behaviour for an unknown ticker is a summary of zero days with a NaN average and no exception. The code instead raises on the column-less frame. The model follows the code in `Summaries.GenerateSummary` and in `App.OnGenerateReport` (its `SummaryRaised` outcome), and records the difference under Findings; `Summaries.Summarize` is the corrected summary.

## Findings

| source | as written | input that shows it | evidently intended | confidence | as-written member | corrected member |
|---|---|---|---|---|---|---|
| app.py:31-33 | on an empty download the report is `pd.DataFrame()` with no columns, and `generate_summary` then reads `df.Return` (app.py:59), which raises AttributeError | a ticker for which the download returns no rows (e.g. "ZZZZ") | a summary of zero trading days with an undefined (NaN) average, and no exception | not executed; high | `Summaries.EmptyFetchSummaryRaises` | `Summaries.Summarize` |
