# Single-asset moving-average backtest, modelled in Dafny

This project models the core of a small single-asset backtester
(`backtest/__init__.py`). The model has two parts:

- **`Strategy`** (`strategy.dfy`) is the dual moving-average signal rule of
  `moving_average_strategy`:
  - MA12 and MA26 are trailing simple means. Each is undefined (`None`, pandas' NaN) until its window is full.
  - The signal is pre-filled with 0.
  - It is set to 1 where MA12 > MA26.
  - It is then overwritten with -1 where the close is below MA26.
  - A comparison with NaN is false.
- **`Engine`** (`engine.dfy`) is the per-bar execution state machine `backtest`.
  - It makes one left-to-right pass that threads `capital` (cash) and `position` (units held; 0 means flat).
  - It appends `capital + position * close` to the equity curve once per bar.
  - The final equity is the curve's last entry.
  - `Backtest` is a method with a `while` loop. It is proved against `StateAt` and `EquityCurve`, a fold of the pure one-bar transition `Step`.
  - `ApplyBar` is the loop body: pass through on bar 0 or a missing signal, buy while flat, sell the whole lot while holding.
  - `ReturnRate` is the return-rate expression of the reporting code.
- **`Wrappers`** (`wrappers.dfy`) holds the `Option` type.

Prices and money are exact `real`s. The three module constants
(`INITIAL_CAPITAL`, `POSITION_SIZE`, `SLIPPAGE`) become a `Config` parameter.
`DefaultConfig` holds the program's values (1,000,000, 0.2, 0.0001).
The engine requires:

- a non-empty input (the code indexes `equity_curve[-1]` and has no check of its own);
- every close > 0 (the buy divides by the price).

The model follows the code where it differs from a plain reading of the strategy:

- One might expect an "Unknown" signal whenever MA26 is undefined, and a buy on a golden cross that stands. The code pre-fills the signal with 0 (line 36), tests the level MA12 > MA26 on every bar rather than a crossing (line 39), and lets the below-MA26 assignment (line 41) overwrite that one. Sell therefore wins, and a warm-up bar has signal 0, not a missing value.
- The engine's `pd.isna` guard (line 57) is kept: the input's signal cell is `Missing | Sig(int)`. `StrategyFrameIsEngineInput` proves that the strategy never produces `Missing`.
- The code validates none of its parameters (initial capital, position size, slippage). `Backtest` needs only positive prices and a non-empty input. The lemmas whose conclusions depend on the parameter ranges (`StateNonNegative`, `BuyNeverBorrows`, `SlippageReducesUnitsBought`) require `ValidConfig`, the ranges the program's fixed settings lie in (`DefaultConfigValid`); `StateNonNegative` also requires `initialCapital >= 0`.

## Model

| member | source | states |
|---|---|---|
| `Strategy.RollingMean` | backtest/__init__.py:34-35 | the rolling mean at bar i is defined exactly when at least w bars exist up to i |
| `Strategy.RollingMeanBetween` | backtest/__init__.py:34-35 | a defined moving average lies between any lower and upper bound of the closes in its window |
| `Strategy.Classify` | backtest/__init__.py:36-41 | signal is -1 iff close < MA26; 1 iff MA12 > MA26 and not close < MA26; 0 iff neither; 0 whenever MA26 is undefined |
| `Strategy.SellOverridesBuy` | backtest/__init__.py:39-41 | a bar with MA12 above MA26 and its close below MA26 gets signal -1 |
| `Strategy.MovingAverageStrategy` | backtest/__init__.py:30-43 | the strategy frame has one row per close, in input order, holding that close, its two rolling means and the signal Classify gives for them |
| `Strategy.SignalsOfFrame` | backtest/__init__.py:34-41 | every signal of the frame is in {-1, 0, 1}, and it is 0 on the first longW-1 bars |
| `Engine.Backtest` | backtest/__init__.py:47-82 | the returned curve is the fold's equity curve (one entry per bar, in order, each `cash + units * close` after that bar); final equity is its last entry; the first entry is the initial capital |
| `Engine.ApplyBar` | backtest/__init__.py:57-74 | the new (capital, position) is the one-bar transition of the old one |
| `Engine.EquityCurve` | backtest/__init__.py:57-78 | the curve has exactly one entry per input bar |
| `Engine.ReturnRate` | backtest/__init__.py:100 | final = initial * (1 + rate); rate is 0 iff final equals initial; for positive capital the rate is positive iff final exceeds initial |
| `Engine.BuyRule` | backtest/__init__.py:65-68 | a buy while flat leaves cash * (1 - positionSize) and buys cash * positionSize * (1 - slippage) / close units |
| `Engine.BuyNeverBorrows` | backtest/__init__.py:65-68 | from non-negative cash a buy keeps cash and units non-negative, and buys a positive lot when cash > 0 and slippage < 1 |
| `Engine.NoPyramiding` | backtest/__init__.py:65 | a buy signal while holding changes nothing |
| `Engine.SellRule` | backtest/__init__.py:71-74 | a sell while holding zeroes the position and adds units * close * (1 - slippage) to cash |
| `Engine.Step` | backtest/__init__.py:57-74 | the one-bar transition (pass-through on bar 0 or a missing signal, buy while flat, sell while holding): the state changes only if it is not bar 0 and is a buy while flat or a sell while holding; units never move from one non-zero lot to another |
| `Engine.StateAt` | backtest/__init__.py:51-55 | the state after the first n bars; it is still (initial capital, 0) after bar 0 |
| `Engine.BuySlippageCost` | backtest/__init__.py:66-68 | a buy lowers equity at the trade price by exactly buyAmount * slippage |
| `Engine.SellSlippageCost` | backtest/__init__.py:72-74 | a sell lowers equity at the trade price by exactly units * close * slippage |
| `Engine.SlippageReducesUnitsBought` | backtest/__init__.py:67 | with positive cash, higher slippage buys strictly fewer units, all else equal |
| `Engine.SlippageReducesSaleProceeds` | backtest/__init__.py:72 | higher slippage brings strictly less cash from a sell, all else equal |
| `Engine.StateNonNegative` | backtest/__init__.py:51-74 | with non-negative initial capital, cash and position are non-negative after every bar |
| `Engine.FirstBarPassThrough` | backtest/__init__.py:51-59 | bar 0 never trades, so the first curve entry equals the initial capital |
| `Engine.NoBuyKeepsInitialState` | backtest/__init__.py:57-74 | if no bar after bar 0 carries signal 1, the state never leaves (initial capital, 0) |
| `Engine.NoBuyFlatCurve` | backtest/__init__.py:77-78 | if no bar after bar 0 carries signal 1, every curve entry equals the initial capital |
| `Engine.HeldLotUnchanged` | backtest/__init__.py:65-74 | once a lot is open, cash and position stay unchanged until a bar with signal -1 |
| `Engine.FromStrategy` | backtest/__init__.py:61-62 | the engine input keeps each row's close and its signal as `Sig(signal)` |
| `Engine.DefaultConfigValid` | backtest/__init__.py:5-7 | the program's settings (1,000,000 capital, 20% sizing, 0.01% slippage) lie in the engine's parameter ranges |
| `Engine.ProgramFrameIsEngineInput` | backtest/__init__.py:34-41 | with windows 12 and 26, positive closes give an engine input with no missing signal and signal 0 on the first 25 bars |
| `Engine.StrategyFrameIsEngineInput` | backtest/__init__.py:36 | positive closes give a frame with positive prices and no missing signal, so the isna guard never fires |
| `Engine.RoundTripExample` | backtest/__init__.py:47-82 | no signal / buy / sell at 100, 100, 110 with 1000 capital, 20% sizing, no slippage: curve [1000, 1000, 1020], return 2% |
| `Engine.NoReentryExample` | backtest/__init__.py:65-68 | no signal / buy / buy: the second buy leaves cash 800 and 2 units, as after the first |

## Left out

- `load_data` (spreadsheet reading, datetime parsing, index setting, the missing-file error): file I/O and foreign-library work. Bars carry only their close; the sequence order is the file's row order, since the loader never sorts by time.
- The `__main__` block: console output, number formatting and the catch-all exception handler. Only the return-rate expression is modelled.
- Engine.ReturnRate: requires non-zero initial capital. The program's capital is the non-zero constant 1,000,000; the model makes it a parameter and excludes 0.
- Floating point: prices, rolling sums and trade arithmetic are exact reals, so IEEE rounding and bit-identical results across runs are not modelled.
- The DataFrame column writes (`data['Equity'] = ...`, `.loc` assignment): the curve and the frame are returned as sequences.
- The hard-coded input file path: configuration only.
