# Pairs-trading strategy engine, modelled in Dafny

This project models the strategy engine of a pairs-trading simulator. The
simulator walks two aligned daily closing-price series, one day at a time. On
each day it:

- asks whether the pair is cointegrated over a lookback window;
- computes the spread z-score over a fixed-width sliding window;
- turns the z-score into a BUY, SELL or HOLD signal;
- runs a position state machine whose closing events are stop loss (SL),
  take profit (TP) and cointegration break (CB);
- carries the entry prices of an open position and marks it to market;
- realises PnL when a position closes, and appends one row to the result table.

Before the run, the strategy parameters go through a guard chain that reports
the first rule they break.

Files:

- `optional.dfy`: `Option`, the source's `None`.
- `user_inputs.dfy` (module `UserInputs`): the parameter record and
  `ValidateParams`, plus a rule table (`Rule`, `Rules`, `Holds`, `Message`).
  The table is a reference reading of the same checks, and a lemma proves
  the two agree.
- `trader.dfy` (module `Trader`): the per-day decision functions. These are
  `GenerateSignal`, `UpdateStatus`, `CalculateBuyPrice`, `CalculateSellPrice`
  and `CalculateMtm`, plus the cointegration window start and the
  zero-deviation guard of the z-score. All of them are pure functions, as in
  the source.
- `strategy.dfy` (module `Strategy`): the daily loop of `run_strategy`.
  `RunStrategy` is an imperative method with a `while` loop that threads the
  previous status, the entry prices, the PnL and the z-score window start, and
  appends rows to a sequence. It is proved against a specification: `Day` is
  one pass of the loop body as a function of the carried `Position`, and
  `IsRun` says that every row is `Day` applied to the state the previous row
  left. The lemmas about `IsRun` state the run's invariants.

Prices, thresholds, lot sizes and PnL are `real`: the engine only compares,
subtracts, adds and multiplies them. The z-score and the cointegration verdict
are inputs. They are functions of their window bounds
(`MarketData.zscoreOf(start, end)` and `MarketData.cointegratedOf(start, end)`),
so the model states which windows the loop asks for without computing the
statistics.

## Model

| member | source | states |
|---|---|---|
| `UserInputs.ValidateParams` | src/user_inputs.py:20-50 | the result is `(true, "")` if and only if every rule holds (window end after start, window size in [5, 30], end within the lookback period, threshold in [1.0, 3.0], stop loss negative, take profit positive) |
| `UserInputs.FirstViolation` | src/user_inputs.py:20-50 | reference reading of the guard chain: it returns no rule exactly when every rule in the list holds; otherwise it returns a failing rule that every earlier rule in the list satisfies |
| `UserInputs.FailingRuleDecides` | src/user_inputs.py:23-47 | if the rule checked in position k fails and all earlier ones hold, the result is `false` with that rule's message, whatever the later rules say; so `initial_end <= initial_start` is reported first, with the "must be greater" message |
| `UserInputs.ValidateParamsReportsFirstViolation` | src/user_inputs.py:20-50 | `ValidateParams` equals the reference reading: `(true, "")` when no rule fails, else `false` with the message of the first failing rule in check order |
| `UserInputs.IntToString` | src/user_inputs.py:29-31 | the `{window_size}` inside the window-size messages is rendered in decimal: a non-negative number gives digits that read back as the number, a negative one gives '-' before such digits; the result is never empty, and neither the number nor the digits after a '-' start with a leading zero |
| `UserInputs.NatToStringRoundTrip` | src/user_inputs.py:29-31 | reading back the decimal rendering of any natural number gives that number, and the rendering has no leading zero |
| `Trader.CointegrationWindowStart` | src/trader.py:14 | the cointegration window start is never negative and never after the current day; it lies exactly `lookback_period` days back when that much history exists, and is 0 otherwise |
| `Trader.ZScore` | src/trader.py:52 | with a positive deviation, the z-score is the number of deviations that puts the current spread at `mean + z * std`; with zero deviation the z-score is 0 |
| `Trader.GenerateSignal` | src/trader.py:56-77 | the numeric value always matches the label (SELL -1, BUY 1, HOLD 0); a missing z-score or no cointegration gives HOLD; SELL holds if and only if cointegrated with z above the threshold; BUY holds if and only if cointegrated with z below minus the threshold and not above it |
| `Trader.SignalIsSymmetric` | src/trader.py:68-77 | with a non-negative threshold, negating the z-score swaps BUY and SELL, keeps HOLD, and negates the signal value |
| `Trader.HoldIsTheThresholdBand` | src/trader.py:68-77 | with a non-negative threshold and cointegration, the signal is HOLD exactly when `-threshold <= z <= threshold` |
| `Trader.UpdateStatus` | src/trader.py:79-103 | from a flat state (None, HOLD, SL, TP, CB) the new status is the signal; from BUY/SELL, in priority order: no cointegration gives CB, then mtm below the stop loss gives SL, then mtm above the take profit gives TP, and otherwise (mtm missing or within bounds) the previous status is kept; an open position either stays or closes |
| `Trader.OpeningOnlyFromFlat` | src/trader.py:82-103 | a status that newly becomes BUY or SELL comes only from a flat state and equals the signal; BUY never becomes SELL directly, nor SELL become BUY |
| `Trader.BreakTakesPriority` | src/trader.py:85-100 | an open position that loses cointegration becomes CB for every mtm, including values that would trigger SL or TP |
| `Trader.CalculateBuyPrice` | src/trader.py:105-128 | an unchanged status keeps the previous buy price; a change to SL/TP/CB/HOLD clears it; a newly opened position gets asset 1's price on a BUY signal, asset 2's price on a SELL signal, and nothing on a HOLD signal |
| `Trader.CalculateSellPrice` | src/trader.py:130-153 | an unchanged status keeps the previous sell price; a change to SL/TP/CB/HOLD clears it; a newly opened position gets asset 2's price on a BUY signal, asset 1's price on a SELL signal, and nothing on a HOLD signal |
| `Trader.EntryLegsSwap` | src/trader.py:117-153 | on the same opening day, a BUY entry's buy price is a SELL entry's sell price and vice versa (the two legs swap) |
| `Trader.CalculateMtm` | src/trader.py:155-179 | a value exists if and only if the index lies inside both series, both entry prices are present and the previous status is BUY or SELL |
| `Trader.MtmOfEntries` | src/trader.py:166-176 | against its entry-day prices, a BUY position is marked as long asset 1 and short asset 2, and a SELL position the reverse (each is the other's negation); a BUY is worth 0 on its entry day |
| `Strategy.RunStrategy` | src/trader.py:204-286 | returns no result exactly when validation fails or either series is shorter than the lookback period (the rejection `!LookbackCovered(m, p.lookbackPeriod)` is the `validate_lookback_period` test of src/data.py:51-53); otherwise it returns one row per day in `[initial_end, len)`, in ascending order, each the loop body applied to the previous row's state, with the z-score window start kept at `current_idx - (initial_end - initial_start)`; after every row, entry prices are present exactly while the status is BUY or SELL; the last row's PnL is the sum of what the closing rows realise |
| `Strategy.Day` | src/trader.py:236-283 | one pass of the loop body on the carried state: the row is for day i and holds that day's two prices; the signal value matches the signal label; no cointegration means HOLD; a mark-to-market value exists only when the day starts with an open position; an open position either keeps its status or closes; PnL grows only by what the day realises |
| `Strategy.DayKeepsEntryPrices` | src/trader.py:246-257 | one day keeps the invariant that buy and sell prices are both present exactly while the status is BUY or SELL |
| `Strategy.DayMarksOpenPositions` | src/trader.py:245-262 | on a day whose carried state satisfies that invariant, mtm exists exactly when the day starts with an open position; PnL grows by the mtm only on a closing status; a closing day always starts open and has an mtm |
| `Strategy.EntryPricesMatchAt` | src/trader.py:246-283 | the carried state before every row of a run from a consistent start satisfies the entry-price invariant |
| `Strategy.RunKeepsEntryPrices` | src/trader.py:246-283 | along a run, after each day the entry prices are present exactly while the status is BUY or SELL; mtm exists exactly on days that start with an open position; every SL/TP/CB row has an mtm |
| `Strategy.RunPnlIsRunningSum` | src/trader.py:259-276 | each row's PnL is the previous PnL plus what the row realises; it differs only on an SL/TP/CB row with an mtm, and then by exactly that mtm; the PnL column is the running sum of the realised amounts |
| `Strategy.RunFinalPnl` | src/trader.py:219-276 | the last row's PnL equals the starting PnL plus the sum of mtm over the closing rows |
| `Strategy.RunTransitions` | src/trader.py:250-283 | an unchanged status carries the entry prices unchanged; BUY never becomes SELL directly, nor SELL become BUY; an opening row follows its signal and takes that day's prices: (asset 1, asset 2) as (buy, sell) for BUY, and the reverse for SELL |
| `Strategy.RunShape` | src/trader.py:233-278 | row k is day `first + k` with that day's prices; its z-score uses the window of `initial_end - initial_start` days just before it; its cointegration window starts at `max(0, day - lookback_period)`; its signal is what those two give |
| `Strategy.RunIsDeterministic` | src/trader.py:229-286 | two runs of the same length from the same start state are identical |
| `Strategy.StrategyRunProperties` | src/trader.py:215-286 | a run from the initial state (no status, no prices, PnL 0) has row k on day `initial_end + k` with z-score window `[initial_start + k, initial_end + k)`; entry prices are present exactly while a position is open; every close is realised; the final PnL is the sum of the closing rows' mtm |

## Left out

- The statistics of `cointegration_test` (src/trader.py:11-33) are left out: the OLS regression and the augmented Dickey-Fuller test are floating-point library computations. The verdict, which line 27 reads off the test's statistic, critical value and p-value by two comparisons, is the input `cointegratedOf(start, current_idx)`. Only the window start (line 14) is modelled.
- The statistics of `calculate_zscore` (src/trader.py:35-54) are left out: the logarithms, mean and standard deviation. The z-score is the input `zscoreOf(start, end)`, and only the zero-deviation guard (line 52) is modelled, as `Trader.ZScore`, over abstract spread statistics.
- Strategy.RunStrategy: does not model a failure of the statistics. In the source, `sm.OLS(...).fit()`, `adfuller(...)` (src/trader.py:21,24) and `calculate_zscore` run inside the loop with no exception handler. If one of them raises, for example on a window too short for the regression, `run_strategy` ends with no rows at all. That is a third outcome beside the two `return None` paths (src/trader.py:208,213). `cointegratedOf` and `zscoreOf` are total, so the model cannot produce it. "No result exactly when validation fails or the lookback is short" therefore holds only when the statistics return.
- `read_price_data` (src/data.py:5-49) is file I/O with pandas date alignment. `Strategy.RunStrategy` requires the two series to have equal length. The separate `dropna` calls at src/data.py:42-43 could break that; the model does not cover that case.
- `get_params` (src/user_inputs.py:3-18) is a form in the web UI; a run takes a `Params` value instead. `Strategy.RunStrategy` requires `initialStart >= 0`, which the form's `min_value=0` guarantees (src/user_inputs.py:10). `ValidateParams` itself does not check it.
- Strategy.RunStrategy: does not model Python's negative positions (`iloc[-k]`), which the source would accept for a negative start index.
- Trader.CalculateBuyPrice: requires the index to lie inside the series it reads when it opens a position, where the source would also accept a negative position from the end or raise an `IndexError`.
- Trader.CalculateSellPrice: same index requirement as `CalculateBuyPrice`, for the same reason.
- The Date column is left out: a row keeps its row label `current_idx` (`DayRecord.index`), and the date is the series' date at that position.
- Logging, `set_index('Date')` and the CSV export (src/trader.py:288-298) are side effects that do not change the rows.
- Signals and statuses are strings in the source and enumerations here. The "unrecognised signal" branch of the entry-price functions can therefore only be reached with a HOLD signal.
- Floating-point rounding is not modelled: prices and PnL are exact reals.
- The end-to-end scenario (synthetic 40-day series through the real statistics) is not modelled, because it depends on the OLS and Dickey-Fuller computations left out above.
- Charts, the app entry point and the package re-exports (src/charts.py, main.py, src/__init__.py) are presentation code, not part of the engine.
