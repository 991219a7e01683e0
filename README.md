# Algo-Trader simulation engine in Dafny

Algo-Trader replays one trading day of one-minute ticks (the `stockData`
series of `Data`) through a trading strategy. A strategy visits every tick
once, in order. At each tick it asks the ledger (`Analysis`) whether one more
base-size trade would keep the position value inside ±100000. It takes at most
one action: a long entry, a short entry, or the end-of-day liquidation at tick
389. Each trade updates cash, position and position value, adds one $10
commission to the running total, appends a signal `(tick, side)` and appends an
eight-entry trade record to the trade log. After the run, `postAnalysisCalculations`
marks the position at the last close, debits the accumulated commission and
computes the profit or loss. The indicators are a single-pass simple moving
average, strictly rising/falling window tests and sustained-crossover tests.

The model has one module per source file:

- `Data` (`data.dfy`): the tick series, trade log and signal list as fields of
  a class. It also has `popList` and the min-low/max-high scans.
- `TechnicalMethods` (`technical_methods.dfy`): the moving-average object. Its
  running-sum loop is proved equal to the trailing mean `SmaAt`. This file also
  holds the window tests and the crossover tests, each proved against a predicate.
- `Analysis` (`analysis.dfy`): the ledger as a class whose methods are proved
  against the pure `Ledger` functions `PreRun`, `PostRun`, `LongFill` and
  `ShortFill`.
- `TradingStrategy` (`trading_strategy.dfy`): the trade mechanics. Each method
  is proved to turn the `Session` (ledger, log, signals) into the value given by
  a pure function (`LongTrade`, `ShortTrade`, `Liquidation`). `Apply` is the
  effect of one tick's `Action`. `Consistent` is the invariant of a run.
- `SMACrossOverDelayed` and `SimpleMomentum`: each strategy has a pure
  per-tick `Decide` and a `Run` that folds it over the ticks. The class's
  `SimulateStrategy` loop is proved to produce exactly `Run`'s session, and
  run-level properties are proved about `Run` by induction. Both strategies
  are built from the corrected moving average and the corrected liquidation
  recorded under "## Findings", so their sessions are those the code intends,
  not those it computes (see "## Left out").

Points where the model follows the code rather than its documentation:

- Commission is summed per trade and taken from cash only in
  `postAnalysisCalculations`. It is not debited at each trade.
- On an empty series, `minLowInData` returns the sentinel 200000000 and
  `maxHighInData` returns 0. Neither reports an error.
- Liquidation is at literal tick 389, not at the last tick of the series.
- `SimpleMomentum.simulateStrategy` computes its sell list from the buy
  averager (`SimpleMomentum.py:60`). Both lists therefore hold the 15-tick
  average. The model keeps this, and `SimpleMomentum.SimpleMomentum.SimulateStrategy`
  states it. `SimpleMomentum.SameListRisingExcludesFalling` shows that with
  equal lists the falling test cannot pass where the rising test passed.
- In `SMACrossOverDelayed.appendStrategySpecificInfo` the local variable names
  are swapped, but the labels come out right: "long-term SMA" carries the
  50-tick value and "short-term SMA" the 15-tick value.
- The crossover loop reads the previous averages at `c - 1`, which at tick 0 is
  Python's index -1 (the last element). The model reads it the same way
  (`PyIndex`). The value is compared only after tick 50.
- The exposure limit is checked against `positionSize`. This is the position
  value summed from each fill's own price. The trade record's "total position
  size" entry marks the whole position at the current close and is not bounded
  by the limit.

## Model

| member | source | states |
|---|---|---|
| Data.Data.constructor | Model/Data.py:23-31 | a new Data object has an empty tick series, trade log and signal list |
| Data.Data.Pop | Model/Data.py:66 | removes exactly the last element of the chosen list; the other two lists are unchanged |
| Data.Data.PopList | Model/Data.py:57-66 | popping once per element empties the chosen list and leaves the other two lists unchanged |
| Data.Data.MinLowInData | Model/Data.py:93-104 | the result is at most every low and at most the sentinel 200000000, and it is the sentinel or one of the lows |
| Data.Data.MaxHighInData | Model/Data.py:107-118 | the result is at least every high and at least 0, and it is 0 or one of the highs |
| TechnicalMethods.SimpleMovingAverage.constructor | Market/TechnicalMethods.py:9-16 | the averager keeps its duration |
| TechnicalMethods.SimpleMovingAverage.GetIndicators | Market/TechnicalMethods.py:19-52 | one value per tick; the value at i is the mean close over the last min(i+1, duration) ticks (`SmaAt`); the running-sum invariant carries the proof |
| TechnicalMethods.SimpleMovingAverage.GetIndicatorsAsWritten | Market/TechnicalMethods.py:19-52 | the loop as written equals the closed form `SmaAsWrittenAt`, which removes the last tick's close and is one tick late in removing the leaving close |
| TechnicalMethods.SmaAsWrittenDeviation | Market/TechnicalMethods.py:38-51 | the values as written agree with the trailing mean during warm-up and differ by (close[i-duration] − close[last]) / duration from i = duration on |
| TechnicalMethods.SmaAsWrittenCounterexample | Market/TechnicalMethods.py:38-51 | for closes 1, 2, 3 and duration 2, the value as written at tick 2 is 1.5, but the trailing mean is 2.5 |
| TechnicalMethods.SmaWithinWindowRange | Market/TechnicalMethods.py:19-52 | each average lies between the smallest and the largest close in its window |
| TechnicalMethods.SmaRunningUpdate | Market/TechnicalMethods.py:44-51 | once the window is full, the next average is the previous one plus (entering close − leaving close) / duration |
| TechnicalMethods.WindowLow | Market/TechnicalMethods.py:67-70 | the first compared index is index − duration + 1 when duration ≤ index, and 1 when index < duration (look-back clamped to index); it is never 0 |
| TechnicalMethods.ValuesRisingInListForInterval | Market/TechnicalMethods.py:55-73 | passes exactly when every compared pair in the clamped window is strictly increasing (`RisingOver`) |
| TechnicalMethods.ValuesFallingInListForInterval | Market/TechnicalMethods.py:76-94 | passes exactly when every compared pair in the clamped window is strictly decreasing (`FallingOver`) |
| TechnicalMethods.WindowTestsReadOnlyWindow | Market/TechnicalMethods.py:67-71 | both window tests depend only on the values from the first compared index up to index |
| TechnicalMethods.WindowTestsVacuous | Market/TechnicalMethods.py:66-72 | with a look-back of at most 1 there is no pair to compare, so both tests pass |
| TechnicalMethods.WindowEndpoints | Market/TechnicalMethods.py:55-94 | a rising window ends strictly above its first compared value, and a falling window ends strictly below it |
| TechnicalMethods.WindowTestsExample | Market/TechnicalMethods.py:55-94 | on 1, 2, 3, 2, 1 the list rises over 3 ending at index 2, falls ending at index 4, and does not rise ending at index 4 |
| TechnicalMethods.CrossOverDelayForLongTradesPassed | Market/TechnicalMethods.py:97-117 | passes exactly when the short average is at or above the long one at each of the last `delay` ticks up to c (`SustainedAbove`) |
| TechnicalMethods.CrossOverDelayForShortTradesPassed | Market/TechnicalMethods.py:120-140 | passes exactly when the short average is at or below the long one at each of the last `delay` ticks up to c (`SustainedBelow`) |
| TechnicalMethods.SustainedCrossoverShape | Market/TechnicalMethods.py:97-140 | a crossover sustained for a delay is also sustained for any shorter delay; both confirmations hold exactly when the averages coincide over the delay |
| TechnicalMethods.SustainedCrossoverExample | Market/TechnicalMethods.py:97-117 | short 5,5,5,5 over long 4,4,4,4 confirms a long with delay 3; a long average of 6 inside the window blocks it |
| Analysis.Analysis.constructor | Model/Analysis.py:24-45 | starts with cash 100000, position 0, commission 10, limits ±100000 and strategy 1 |
| Analysis.Analysis.PreAnalysisCalculations | Model/Analysis.py:48-56 | resets cash, position and total commission to their starting values and keeps the other fields |
| Analysis.Analysis.PostAnalysisCalculations | Model/Analysis.py:59-68 | marks the position at the last close, debits the total commission from cash, and sets PL = cash − 100000 + position value |
| Analysis.CheckShortIsInLimits | Model/Analysis.py:71-84 | true exactly when position value − shares × close stays at or above −100000 |
| Analysis.CheckLongIsInLimits | Model/Analysis.py:87-100 | true exactly when position value + shares × close stays at or below 100000 |
| Analysis.PreRunIdempotent | Model/Analysis.py:48-56 | the reset is idempotent, and it forgets the previous cash, position and commission |
| Analysis.PostRunProfit | Model/Analysis.py:59-68 | PL is the marked equity net of commission minus the starting cash; when flat, it is cash − commission − 100000 |
| Analysis.FillsPreserveEquity | Model/TradingMethods/TradingStrategy.py:100-132 | a long or short fill leaves cash + position value unchanged and adds exactly one commission |
| Analysis.LongThenShortRestores | Model/TradingMethods/TradingStrategy.py:100-132 | a long and a short of the same size at the same price cancel, except for two commissions |
| Analysis.LongFillExample | Model/TradingMethods/TradingStrategy.py:100-105 | buying 100 shares at 50 from 100000 leaves 95000 and 100 shares, and 94990 after the commission debit |
| Analysis.LimitChecksBoundFills | Model/Analysis.py:71-100 | a fill that passed its check ends with position value at most 100000 (long) or at least −100000 (short) |
| TradingStrategy.TruncateToInt | Model/TradingMethods/TradingStrategy.py:44-47 | Python's int(): truncates toward zero from either side |
| TradingStrategy.TradingStrategy.constructor | Model/TradingMethods/TradingStrategy.py:14-31 | base sizes 600 and 600, sizing fractions 0.8 and 0.8, the given name, ledger and data |
| TradingStrategy.TradingStrategy.ResizeTradingSize | Model/TradingMethods/TradingStrategy.py:34-47 | each base size becomes fraction × (cash + position value) / close at tick c, truncated toward zero |
| TradingStrategy.TradingStrategy.PerformLongStockCalculations | Model/TradingMethods/TradingStrategy.py:100-105 | the ledger becomes `LongFill`: cash down and position value up by shares × close, position up by shares, one commission |
| TradingStrategy.TradingStrategy.PerformShortStockCalculations | Model/TradingMethods/TradingStrategy.py:127-132 | the ledger becomes `ShortFill`, the mirror image of the long fill |
| TradingStrategy.TradingStrategy.AddRecord | Model/TradingMethods/TradingStrategy.py:135-173 | appends one record: tick, name, side, shares, price, shares × price, new position × price, strategy entry |
| TradingStrategy.TradingStrategy.LongStock | Model/TradingMethods/TradingStrategy.py:82-97 | session becomes `LongTrade`: long fill, one Long signal at c, and one matching record |
| TradingStrategy.TradingStrategy.ShortStock | Model/TradingMethods/TradingStrategy.py:108-124 | session becomes `ShortTrade`: short fill, one Short signal at c, and one matching record |
| TradingStrategy.TradingStrategy.LiquidateRemainingPosition | Model/TradingMethods/TradingStrategy.py:68-79 | closes a long by selling it and a short by buying back −position, so the position ends at 0 |
| TradingStrategy.TradingStrategy.LiquidateRemainingPositionAsWritten | Model/TradingMethods/TradingStrategy.py:68-79 | the code as written: a short position is passed to the long fill with its sign, so it doubles |
| TradingStrategy.LiquidationFlattens | Model/TradingMethods/TradingStrategy.py:68-79 | liquidation leaves position 0 with one opposite-side record of \|position\| shares, or changes nothing when flat |
| TradingStrategy.LiquidationAsWrittenDoublesShort | Model/TradingMethods/TradingStrategy.py:78-79 | as written, a short position p < 0 becomes 2p and is never closed |
| TradingStrategy.ApplyPreservesConsistency | Model/TradingMethods/TradingStrategy.py:82-132 | one tick appends at most one record, at that tick, with its matching signal; equity is kept and one commission is charged per record |
| TradingStrategy.EntryKeepsExposure | Model/Analysis.py:71-100 | an entry that passed its limit check, at a non-negative price and size, keeps the position value within ±100000 |
| SMACrossOverDelayed.StrategySpecificInfo | Model/TradingMethods/SMACrossOverDelayed.py:102-112 | the record carries the 50-tick value labelled long-term and the 15-tick value labelled short-term |
| SMACrossOverDelayed.DecideRules | Model/TradingMethods/SMACrossOverDelayed.py:81-99 | liquidate iff tick 389; long iff past 50, long limit holds and 3-tick sustained crossover; short iff past 50, long limit fails, short limit holds and a fresh cross-down; no entry before 51 |
| SMACrossOverDelayed.EntriesRespectLimits | Model/TradingMethods/SMACrossOverDelayed.py:76-99 | every long entry ends at most 100000 and every short entry at least −100000 in position value |
| SMACrossOverDelayed.RunConsistent | Model/TradingMethods/SMACrossOverDelayed.py:71-99 | a run only appends, at most one trade per tick and in tick order; each record has its signal, equity is kept, one commission per trade |
| SMACrossOverDelayed.RunWithinExposure | Model/TradingMethods/SMACrossOverDelayed.py:76-99 | before tick 389, with non-negative prices and sizes, the position value stays within ±100000 |
| SMACrossOverDelayed.FullSessionEndsFlat | Model/TradingMethods/SMACrossOverDelayed.py:82-83 | with the corrected liquidation, a 390-tick session ends flat, and its PL is the starting equity minus the residual position value, commissions and 100000 |
| SMACrossOverDelayed.SMACrossOverDelayed.constructor | Model/TradingMethods/SMACrossOverDelayed.py:22-46 | name "SMA Crossover(15,50) D=3", base sizes 600, the given ledger and data |
| SMACrossOverDelayed.SMACrossOverDelayed.SimulateStrategy | Model/TradingMethods/SMACrossOverDelayed.py:59-99 | the two lists are the corrected 15- and 50-tick averages (`GetIndicators`); the loop leaves exactly the session `Run` defines, whose liquidation is the corrected `Liquidation` |
| SimpleMomentum.StrategySpecificInfo | Model/TradingMethods/SimpleMomentum.py:88-98 | the record carries the buy value labelled Long(Buy) and the sell value labelled Short(Sell) |
| SimpleMomentum.DecideRules | Model/TradingMethods/SimpleMomentum.py:69-85 | liquidate iff tick 389; long iff past 15, long limit holds and rising over 15; short iff the long branch is not taken, past 5, short limit holds and falling over 5; no trade before 6 |
| SimpleMomentum.EntriesRespectLimits | Model/TradingMethods/SimpleMomentum.py:64-85 | every long entry ends at most 100000 and every short entry at least −100000 in position value |
| SimpleMomentum.SameListRisingExcludesFalling | Model/TradingMethods/SimpleMomentum.py:57-85 | on one list past tick 15, rising over 15 excludes falling over 5 |
| SimpleMomentum.RunConsistent | Model/TradingMethods/SimpleMomentum.py:62-85 | a run only appends, at most one trade per tick and in tick order; each record has its signal, equity is kept, one commission per trade |
| SimpleMomentum.RunWithinExposure | Model/TradingMethods/SimpleMomentum.py:64-85 | before tick 389, with non-negative prices and sizes, the position value stays within ±100000 |
| SimpleMomentum.FullSessionEndsFlat | Model/TradingMethods/SimpleMomentum.py:69-71 | with the corrected liquidation, a 390-tick session ends flat, and its PL is the starting equity minus the residual position value, commissions and 100000 |
| SimpleMomentum.SimpleMomentum.constructor | Model/TradingMethods/SimpleMomentum.py:17-38 | name "Simple Momentum (15, 5)", base sizes 600, the given ledger and data |
| SimpleMomentum.SimpleMomentum.SimulateStrategy | Model/TradingMethods/SimpleMomentum.py:51-85 | the buy list is the corrected 15-tick average (`GetIndicators`) and the sell list equals it; the loop leaves exactly the session `Run` defines, whose liquidation is the corrected `Liquidation` |

## Left out

- The chart and user interface: `updateChart`, `signalViewToDrawIndicators` and the View module. They do not affect the engine's state.
- Downloading the series (`refreshStockData` over the network) and its timer (`refreshAndReset`, `setDataTimerToReset`, the ticker, exchange and refresh fields). The series is a field that the caller sets.
- The `getInstance` singletons. The ledger and data objects are passed to the constructors instead.
- Inheritance. Each strategy holds a `TradingStrategy` object instead of subclassing it.
- The 0/1 integer flags are modelled as booleans.
- The text of a trade record. The price is kept as a number, not its string. The strategy entry is an `Annotation` with two labels and two values instead of one formatted string.
- Floating point. Prices and money are exact reals, with no rounding.
- The strategies' own initializers do not call the base initializer, so in the Python code the sizing fractions are never set on a strategy object. The model sets them through the base constructor. `resizeTradingSize` is called by neither strategy.
- `crossOverDelayForShortTrades` is declared but no strategy reads it. `crossOverDelayForShortTradesPassed` is modelled but is likewise not called.
- TechnicalMethods.SimpleMovingAverage.GetIndicators: requires duration ≥ 1. With duration 0 the Python code divides by zero.
- TechnicalMethods.SimpleMovingAverage.GetIndicatorsAsWritten: requires duration ≥ 1, for the same reason.
- TechnicalMethods.CrossOverDelayForLongTradesPassed: requires delay ≤ c + 1. A longer delay makes the Python code read negative indices, which wrap to the end of the lists. The strategy calls it with delay 3 after tick 50.
- TechnicalMethods.CrossOverDelayForShortTradesPassed: requires delay ≤ c + 1, as for the long test.
- TradingStrategy.TradingStrategy.ResizeTradingSize: requires a non-zero close. The Python code raises on division by zero.
- Analysis.Analysis.PostAnalysisCalculations: requires a non-empty series. The Python code raises on the index of the last tick.
- Data.Data.Pop: requires a non-empty list, like Python's `pop`.
- SMACrossOverDelayed.RunWithinExposure: stated only before tick 389 and for non-negative closes and base sizes. A liquidation is not limit-checked, and a negative size or price turns the check around.
- SimpleMomentum.RunWithinExposure: the same bounds as the crossover strategy.
- SMACrossOverDelayed.SMACrossOverDelayed.SimulateStrategy: the run uses the corrected `GetIndicators` and `Liquidation`, not `GetIndicatorsAsWritten` and `LiquidationAsWritten`. So its averages differ from the Python code's from tick 15 on (closes 1, 2, 3 with duration 2 give 2.5 here, 1.5 there), and a short position held at tick 389 is closed here but doubled there.
- SMACrossOverDelayed.FullSessionEndsFlat: holds for the corrected `Liquidation` only. In the Python code a session holding −600 shares at tick 389 ends at −1200, not 0; its averages also come from the corrected `GetIndicators`, which differ from the Python code's from tick 15 on.
- SimpleMomentum.SimpleMomentum.SimulateStrategy: the run uses the corrected `GetIndicators` and `Liquidation`, not `GetIndicatorsAsWritten` and `LiquidationAsWritten`. So its averages differ from the Python code's from tick 15 on, and a short position held at tick 389 is closed here but doubled there.
- SimpleMomentum.FullSessionEndsFlat: holds for the corrected `Liquidation` only. In the Python code a session holding −600 shares at tick 389 ends at −1200, not 0; its averages also come from the corrected `GetIndicators`.

## Findings

| source | as written | input that shows it | evidently intended | confidence | as-written member | corrected member |
|---|---|---|---|---|---|---|
| Market/TechnicalMethods.py:40 | at i = duration − 1 the tail is read at index i − duration = −1, the last tick. Every later step subtracts the close that left the window one step earlier | closes 1, 2, 3 with duration 2: the value at tick 2 is 1.5 (`SmaAsWrittenCounterexample`) | the trailing mean of closes 2 and 3, that is 2.5 | not executed | TechnicalMethods.SimpleMovingAverage.GetIndicatorsAsWritten | TechnicalMethods.SimpleMovingAverage.GetIndicators |
| Model/TradingMethods/TradingStrategy.py:79 | a short position is liquidated by `longStock` with `analyzer.position`, a negative share count | position −600 at tick 389: it becomes −1200 (`LiquidationAsWrittenDoublesShort`) | buy back 600 shares and end flat | not executed | TradingStrategy.TradingStrategy.LiquidateRemainingPositionAsWritten | TradingStrategy.TradingStrategy.LiquidateRemainingPosition |
