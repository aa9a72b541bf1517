# DCA stock alert: a Dafny model

`dca_alert.py` is meant to run daily over a fixed list of US tickers; each run calls `main` once. For each ticker it downloads
daily bars (2 years) and weekly bars (5 years) and derives the same indicator columns on both
frames: Stochastic RSI %K and %D, EMA50/100/200, MACD and its signal line. It then checks the
rule "%K above %D, both below 0.2" on the newest daily row. A ticker that passes produces an
alert. The alert also reports the daily and weekly MACD trend and whether EMA50 > EMA100 >
close > EMA200. At the end the tool posts one chat message per alert, or a single "no stock
meets the DCA condition today" message when there is no alert.

Six modules make up the model:

- `Wrappers` (`wrappers.dfy`): `Option`, which stands for a NaN cell, and `Result`, which stands
  for a raised exception.
- `Windows` (`windows.dfy`): pandas `rolling(w)` with its default `min_periods = w`, followed by
  a mean, a minimum or a maximum.
- `Ewm` (`ewm.dfy`): `ewm(span, adjust=False).mean()` as the recurrence `ema[0] = x[0]`,
  `ema[i] = α·x[i] + (1 − α)·ema[i − 1]`, with `α = 2/(span + 1)`.
- `Indicators` (`indicators.dfy`): `calculate_indicators` column by column, ending with
  `dropna()`.
- `Signals` (`signals.dfy`): `check_signals` as a pure function. It returns `None` where the
  source returns `""`. Otherwise it returns the structured content of the message.
- `Runner` (`runner.dfy`): `main`. The ticker loop is the method `CollectSignals`, its body the method `ScanOne`, and
  the sending branch the method `Deliver`. The download is a parameter
  `fetch: (string, Interval) -> Download`. The chat webhook is a `Webhook` object whose ghost
  field `sent` records every notice handed to it.

All prices are exact `real`s. A NaN cell is `None`. `dca_alert.py` computes no support levels
and no confirmed/watch tier, so the model has neither.

Points where the model follows the code closely:

- `delta.where(delta > 0, 0)` also turns the NaN of the first `diff()` row into 0, so the first
  14-bar gain and loss means exist at row 13 and include that 0.
- When the loss mean is 0, `gain / loss` is infinite in floating point, so the RSI is 100 if
  the gain mean is nonzero. It is 0/0, that is NaN, if the gain mean is zero too. `RsiOf`
  writes both cases out.
- `(rsi - min) / (max - min)` is 0/0 over a flat 14-bar RSI window, which gives NaN.
- Together these mean the first row that can survive `dropna()` is row 30: RSI from row 13,
  its 14-bar min/max from row 26, %K from row 28, %D from row 30.

## Model

| member | source | states |
|---|---|---|
| Windows.MinOf | dca_alert.py:47 | the rolling minimum is one of the window's values and no value is below it |
| Windows.MaxOf | dca_alert.py:47 | the rolling maximum is one of the window's values and no value is above it |
| Windows.Rolling | dca_alert.py:43-44 | a rolling column has the input's length and is defined exactly where the w cells ending there are all defined |
| Windows.RollingWarmUp | dca_alert.py:43-44 | a rolling value exists only from position w − 1 on, and only when the first and last cells of its window are defined |
| Windows.RollingDelays | dca_alert.py:43-49 | a column undefined before row d gives a rolling column undefined before row d + w − 1 |
| Windows.RollingAtLeast | dca_alert.py:43-44 | a rolling mean/min/max of cells that are all ≥ lo is ≥ lo |
| Windows.RollingAtMost | dca_alert.py:43-44 | a rolling mean/min/max of cells that are all ≤ hi is ≤ hi |
| Windows.AggregateAtLeast | dca_alert.py:43-44 | a mean, minimum or maximum of values ≥ lo is ≥ lo |
| Windows.AggregateAtMost | dca_alert.py:43-44 | a mean, minimum or maximum of values ≤ hi is ≤ hi |
| Windows.SumAtLeast | dca_alert.py:43 | the sum of n values ≥ lo is at least n·lo |
| Windows.SumAtMost | dca_alert.py:44 | the sum of n values ≤ hi is at most n·hi |
| Windows.WindowValues | dca_alert.py:47 | every value of a full window is the value of a defined cell inside that window |
| Windows.WindowNewest | dca_alert.py:47 | the RSI at a row is one of the values of its own 14-bar window |
| Windows.RollingBrackets | dca_alert.py:47 | the rolling min and max are the window's min and max, and the newest value lies between them |
| Windows.RollingBetween | dca_alert.py:47 | the rolling minimum and maximum are defined on a full window and enclose its newest cell |
| Ewm.Alpha | dca_alert.py:53 | the smoothing factor 2/(span+1) lies in (0, 1] for every span ≥ 1 |
| Ewm.Ema | dca_alert.py:56-59 | the EMA column has the input's length, starts at x[0] and then follows α·x[i] + (1−α)·ema[i−1] |
| Ewm.Between | dca_alert.py:53 | one EMA step averages two values in [lo, hi] and stays in [lo, hi] |
| Ewm.EmaAtBounded | dca_alert.py:53 | by induction: the EMA at i stays within any bounds of x[0..i] |
| Ewm.EmaBounded | dca_alert.py:53 | each EMA value lies within any bounds of the values seen up to it |
| Ewm.EmaWithinPrefixRange | dca_alert.py:53 | each EMA value lies between the minimum and the maximum of the closes seen so far |
| Ewm.MinPrefixBelow | dca_alert.py:53 | the running minimum is attained and is below every value seen |
| Ewm.MaxPrefixAbove | dca_alert.py:53 | the running maximum is attained and is above every value seen |
| Ewm.EmaAtMonotone | dca_alert.py:53 | over non-decreasing closes each EMA step does not go down |
| Ewm.EmaNonDecreasing | dca_alert.py:53 | over non-decreasing closes the whole EMA column is non-decreasing |
| Ewm.EmaOfConstant | dca_alert.py:53 | a constant series is its own EMA, for every span |
| Indicators.Closes | dca_alert.py:42 | the close column has one value per bar |
| Indicators.Diff | dca_alert.py:42 | diff() keeps the column length |
| Indicators.WherePositive | dca_alert.py:43 | where(delta > 0, 0) keeps the column length |
| Indicators.WhereNegative | dca_alert.py:44 | where(delta < 0, 0) keeps the column length |
| Indicators.Negate | dca_alert.py:44 | unary minus keeps the column length |
| Indicators.AvgGain | dca_alert.py:43 | every defined 14-bar gain mean is ≥ 0 |
| Indicators.AvgLoss | dca_alert.py:44 | every defined loss, minus the 14-bar mean of the non-positive moves, is ≥ 0 |
| Indicators.RsiOf | dca_alert.py:45-46 | the RSI is defined iff both means are defined and not both zero, and then lies in [0, 100] |
| Indicators.RsiColumn | dca_alert.py:45-46 | the RSI column keeps the length |
| Indicators.StochOf | dca_alert.py:47 | the stochastic quotient is defined iff the RSI and both window bounds are defined and the bounds differ (a flat window is 0/0, NaN), and then it is the value q with q·(max − min) = rsi − min |
| Indicators.StochColumn | dca_alert.py:47 | the stochastic column keeps the length |
| Indicators.PercentK | dca_alert.py:48 | the %K column keeps the length |
| Indicators.PercentD | dca_alert.py:49 | the %D column keeps the length |
| Indicators.Macd | dca_alert.py:56-58 | the MACD column keeps the length |
| Indicators.SignalLine | dca_alert.py:59 | the signal column keeps the length |
| Indicators.Annotate | dca_alert.py:40-59 | the annotated frame has one row per bar |
| Indicators.Clip | dca_alert.py:48-49 | clip keeps NaN as NaN, puts every defined value in [lo, hi] and leaves values already inside unchanged |
| Indicators.UnitQuotient | dca_alert.py:47 | (r − lo)/(hi − lo) lies in [0, 1] when lo ≤ r ≤ hi and lo < hi |
| Indicators.StochOfInUnitInterval | dca_alert.py:47 | an RSI between a distinct window minimum and maximum has a defined stochastic value in [0, 1] |
| Indicators.StochAtInUnitInterval | dca_alert.py:47 | one defined stochastic RSI value lies in [0, 1] |
| Indicators.StochInUnitInterval | dca_alert.py:47 | every defined stochastic RSI value lies in [0, 1] |
| Indicators.ClipNeverBinds | dca_alert.py:48-49 | in exact arithmetic clip(0, 1) changes neither %K nor %D |
| Indicators.DropNa | dca_alert.py:61 | dropna() never lengthens the frame |
| Indicators.DropNaMembers | dca_alert.py:61 | a row is kept iff it is a complete input row |
| Indicators.DropNaEmpty | dca_alert.py:61 | the result is empty iff no input row is complete |
| Indicators.DropNaLast | dca_alert.py:61 | the last kept row is the newest complete input row |
| Indicators.NewestCompleteSkips | dca_alert.py:61 | an incomplete newest row does not change which complete row comes last |
| Indicators.DropNaSkipsPrefix | dca_alert.py:61 | m incomplete leading rows shorten the result by at least m |
| Indicators.CalculateIndicators | dca_alert.py:38-61 | the returned frame is no longer than the input |
| Indicators.RsiWarmUp | dca_alert.py:42-46 | the RSI is undefined before row 13 |
| Indicators.StochWarmUp | dca_alert.py:47 | an RSI undefined before row 13 gives a stochastic RSI undefined before row 26 |
| Indicators.KWarmUp | dca_alert.py:47-48 | %K is undefined before row 28 |
| Indicators.DWarmUp | dca_alert.py:49 | %D is undefined before row 30 |
| Indicators.WarmUp | dca_alert.py:61 | at most 30 bars give an empty frame; otherwise at most n − 30 rows remain |
| Indicators.EmptyInput | dca_alert.py:38-61 | no bars give an empty frame |
| Indicators.CalculatedRow | dca_alert.py:48-61 | each returned row is some input bar with that bar's %K, %D, EMAs, MACD and signal |
| Indicators.LastRow | dca_alert.py:61 | the last returned row belongs to the newest bar whose indicators are all defined |
| Indicators.RowsInUnitInterval | dca_alert.py:48-49 | %K and %D of every returned row lie in [0, 1] |
| Indicators.ConstantSeriesNoRows | dca_alert.py:42-47 | a flat close series makes every RSI 0/0, so no row survives dropna() |
| Signals.CheckSignals | dca_alert.py:64-95 | a result exists iff %K > %D, %K < 0.2 and %D < 0.2 on the last daily row. It then carries that row's %K, %D and close. The daily trend is Up iff MACD > Signal on the last daily row, the weekly trend likewise on the last weekly row, and the EMA flag holds iff EMA50 > EMA100 > close > EMA200. The gate `StochGate` (line 71), the trend `TrendOf` (lines 80-81) and the EMA flag `EmaStacked` (lines 82-86) are stated through these clauses |
| Signals.GateIsStrict | dca_alert.py:71 | %K = %D, %K = 0.2 or %D = 0.2 never yields a result |
| Signals.OnlyStochGates | dca_alert.py:71-94 | two frame pairs whose last daily rows agree on %K and %D both give a result or both give none, whatever the trends, the EMAs or the weekly frame |
| Signals.GatedRowBounds | dca_alert.py:66-71 | a computed last daily row that passes the gate has 0 ≤ %D < %K < 0.2 |
| Runner.ScanTicker | dca_alert.py:115-121 | a ticker yields a message iff both frames are non-empty and the last daily row passes the gate; the message names the ticker and has 0 ≤ %D < %K < 0.2; with both frames non-empty the step is exactly `check_signals` on them |
| Runner.ScanOne | dca_alert.py:115-119 | the loop body computes both frames, skips an empty one and otherwise applies the rule, yielding exactly the per-ticker step |
| Runner.Collect | dca_alert.py:113-121 | the loop collects at most one message per ticker |
| Runner.CollectSignals | dca_alert.py:113-121 | the loop returns exactly the messages of the scanned tickers, in ticker order |
| Runner.CollectAppend | dca_alert.py:114-121 | scanning two lists in turn collects the first list's messages, then the second's |
| Runner.CollectStep | dca_alert.py:119-121 | extending the scanned prefix by one ticker appends exactly what that ticker's step yields |
| Runner.CollectOne | dca_alert.py:119-121 | scanning a single ticker collects exactly what its step yields |
| Runner.CollectMembers | dca_alert.py:114-121 | a message is collected iff some ticker in the list produced it |
| Runner.CollectSkips | dca_alert.py:117-121 | dropping a ticker whose step yields nothing from the list leaves the collected messages unchanged |
| Runner.FlatSeriesNoSignal | dca_alert.py:42-47 | a ticker with flat daily closes never produces a message |
| Runner.BlankDownloadSkipped | dca_alert.py:115-118 | in the corrected loop a ticker whose daily download failed collects the same messages as the list without it |
| Runner.Notices | dca_alert.py:122-126 | the run sends one notice if nothing was collected, otherwise exactly one per message in order; the "no signal" notice appears iff nothing was collected |
| Runner.AlertsAreMessages | dca_alert.py:124-126 | every alert sent carries one of the collected messages |
| Runner.CollectedSound | dca_alert.py:114-121 | every collected message names a listed ticker with 0 ≤ %D < %K < 0.2 |
| Runner.RunAlertsSound | dca_alert.py:112-126 | every alert sent names a listed ticker with 0 ≤ %D < %K < 0.2 |
| Runner.Webhook.Send | dca_alert.py:98-109 | one call to send_to_discord appends its notice to the record |
| Runner.Deliver | dca_alert.py:122-126 | the sending branch appends exactly the notices of the collected messages |
| Runner.Run | dca_alert.py:112-126 | a run appends to the webhook record exactly the notices of the messages its loop collects |
| Runner.CalculateIndicatorsAsWritten | dca_alert.py:33-42 | as written, indicators on the column-less frame of a failed download raise KeyError |
| Runner.ScanTickerAsWritten | dca_alert.py:115-121 | as written, a ticker step raises iff one of its downloads failed; otherwise it agrees with the corrected step |
| Runner.CollectAsWritten | dca_alert.py:114-121 | the loop as written collects at most one message per ticker, and when it fails the error is the one some ticker's step raised |
| Runner.CollectAsWrittenFails | dca_alert.py:114-121 | a loop whose step raises at some ticker fails; otherwise it collects what the non-raising step collects |
| Runner.AsWrittenFailsOnBlank | dca_alert.py:114-121 | as written, the loop fails iff some download failed; otherwise it collects what the corrected loop collects |
| Runner.BlankDownloadAborts | dca_alert.py:115 | one failed daily download aborts the loop as written, while the corrected loop collects nothing for that ticker |

## Findings

| source | as written | input that shows it | evidently intended | confidence | as-written member | corrected member |
|---|---|---|---|---|---|---|
| dca_alert.py:33-35 | when the download raises, `fetch_data` returns `pd.DataFrame()`, which has no columns. `calculate_indicators` then reads `df['Close']` (line 42) and raises `KeyError` before the emptiness test of line 117, so `main` stops and sends nothing, not even the "no signal" notice | any ticker whose `yf.download` call raises, for example on a network error | the ticker is skipped like one with an empty frame, and the run goes on | not executed; medium: it rests on pandas raising `KeyError` for a missing column | Runner.AsWrittenFailsOnBlank | Runner.BlankDownloadSkipped |

The rest of the model uses the corrected reading: `BarsOf(Blank)` is the empty bar list.

## Left out

- `fetch_data` / `yf.download` (dca_alert.py:21-35) is network I/O. It is the parameter
  `fetch`, a fixed function from ticker and interval to a `Download`. The period strings
  "2y"/"5y" and the log line are not modelled.
- `send_to_discord` (dca_alert.py:98-109) is HTTP I/O. It appears only as `Webhook.Send`.
- Signals.CheckSignals: requires a non-empty daily frame, and a non-empty weekly frame once the
  gate passes. The source raises `IndexError` at `df_day.iloc[-1]` (dca_alert.py:66) on an empty
  daily frame and at `df_week['MACD'].iloc[-1]` (dca_alert.py:78) on an empty weekly one. Its only
  caller, `main`, skips both cases at dca_alert.py:117-118, so the model leaves out those errors.
- Runner.Webhook.Send: records each call, not a delivery. When `WEBHOOK_URL` is unset, or the
  POST fails, the source logs an error and delivers nothing. The model does not tell those
  cases apart.
- Logging setup and calls (dca_alert.py:18, 31, 34) have no effect on the result.
- The `TICKERS` constant and `WEBHOOK_URL` configuration (dca_alert.py:9-15) become the
  `tickers` parameter and the `Webhook` object.
- Message text (dca_alert.py:80-93) is not modelled: the Thai strings, the emoji, the Markdown
  and the `:.2f` rounding. `SignalResult` and `Notice` carry the content instead.
- Floating point is not modelled. Arithmetic is exact over `real`. The threshold `0.2` is the
  real 1/5, not the nearest double, and the rounding inside pandas' rolling means and EWM is
  ignored. NaN is `None`. The one infinite case, a zero loss mean, is written out as its float
  result (RSI 100).
- NaN cells in the downloaded OHLCV columns are not modelled. `dropna()` would drop such rows
  too, but `Bar` fields are always defined.
- yfinance multi-index columns are not modelled, nor Series-valued cells (the reason for the
  `float(...)` casts at dca_alert.py:68-79).
- The `if __name__ == "__main__"` entry (dca_alert.py:128-129) is not modelled.
- Recomputing indicators on a trailing window of the input is not modelled. The model defines
  each column on the whole downloaded series, as the source does.
