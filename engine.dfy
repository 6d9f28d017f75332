/**
 * The single-asset backtest engine `backtest` (backtest/__init__.py:47-82):
 * one pass over the bars threading cash and the units held, appending the
 * total equity of every bar to the equity curve. Money is exact `real`.
 */
module Engine {
  import Strategy

  /** The engine's parameters: INITIAL_CAPITAL, POSITION_SIZE and SLIPPAGE. */
  datatype Config = Config(initialCapital: real, positionSize: real, slippage: real)

  /** The program's own settings (backtest/__init__.py:5-7). */
  const DefaultConfig := Config(1000000.0, 0.2, 0.0001)

  /** Fraction of cash spent on a buy in (0, 1]; slippage in [0, 1]. */
  predicate ValidConfig(cfg: Config)
  {
    0.0 < cfg.positionSize <= 1.0 && 0.0 <= cfg.slippage <= 1.0
  }

  /** The `Signal` cell of a bar: NaN (`pd.isna`) or a number. */
  datatype SignalCell = Missing | Sig(value: int)

  /** What the engine reads of one row: the close and the signal. */
  datatype Bar = Bar(close: real, signal: SignalCell)

  /** Cash (`capital`) and units held (`position`; 0 means flat). */
  datatype State = State(cash: real, units: real)

  predicate PositivePrices(bars: seq<Bar>)
  {
    forall i :: 0 <= i < |bars| ==> bars[i].close > 0.0
  }

  function Initial(cfg: Config): State
  {
    State(cfg.initialCapital, 0.0)
  }

  /** Total equity of a state marked at a price. */
  function Equity(s: State, price: real): real
  {
    s.cash + s.units * price
  }

  /**
   * One bar of the loop. The first bar and a bar with a missing signal pass
   * through; otherwise a buy signal while flat spends `cash * positionSize`
   * and receives that amount less slippage in units, and a sell signal while
   * holding liquidates the whole lot at `price * (1 - slippage)`. The state
   * changes only on a buy while flat or a sell while holding, never on the
   * first bar, and the units never move from one open lot to another.
   */
  function Step(s: State, bar: Bar, first: bool, cfg: Config): (t: State)
    requires bar.close > 0.0
    ensures t != s ==>
      !first && ((bar.signal == Sig(1) && s.units == 0.0) || (bar.signal == Sig(-1) && s.units > 0.0))
    ensures t.units != s.units ==> s.units == 0.0 || t.units == 0.0
  {
    if bar.signal.Missing? || first then s
    else if bar.signal.value == 1 && s.units == 0.0 then
      var buyAmount := s.cash * cfg.positionSize;
      State(s.cash - buyAmount, buyAmount * (1.0 - cfg.slippage) / bar.close)
    else if bar.signal.value == -1 && s.units > 0.0 then
      State(s.cash + s.units * bar.close * (1.0 - cfg.slippage), 0.0)
    else s
  }

  /** The state after the first n bars have been processed; bar 0 never trades. */
  function StateAt(bars: seq<Bar>, n: nat, cfg: Config): (r: State)
    requires n <= |bars| && PositivePrices(bars)
    ensures n <= 1 ==> r == Initial(cfg)
  {
    if n == 0 then Initial(cfg) else Step(StateAt(bars, n - 1, cfg), bars[n - 1], n == 1, cfg)
  }

  /** The equity curve: entry i marks the state after bar i at bar i's close. */
  function EquityCurve(bars: seq<Bar>, cfg: Config): (curve: seq<real>)
    requires PositivePrices(bars)
    ensures |curve| == |bars|
  {
    seq(|bars|, i requires 0 <= i < |bars| => Equity(StateAt(bars, i + 1, cfg), bars[i].close))
  }

  /**
   * `backtest`: runs the bars through the state machine and returns the
   * equity curve and the final equity, its last entry.
   */
  method Backtest(bars: seq<Bar>, cfg: Config) returns (curve: seq<real>, finalEquity: real)
    requires |bars| > 0
    requires PositivePrices(bars)
    ensures curve == EquityCurve(bars, cfg)
    ensures |curve| == |bars|
    ensures finalEquity == curve[|bars| - 1]
    ensures finalEquity == Equity(StateAt(bars, |bars|, cfg), bars[|bars| - 1].close)
    ensures curve[0] == cfg.initialCapital
  {
    var capital := cfg.initialCapital;
    var position := 0.0;
    curve := [];
    var i := 0;
    while i < |bars|
      invariant 0 <= i <= |bars|
      invariant |curve| == i
      invariant State(capital, position) == StateAt(bars, i, cfg)
      invariant curve == EquityCurve(bars, cfg)[..i]
    {
      var price := bars[i].close;
      capital, position := ApplyBar(capital, position, bars[i], i == 0, cfg);
      var totalEquity := capital + position * price;
      CurveGrows(bars, cfg, i, curve, capital, position, price, totalEquity);
      curve := curve + [totalEquity];
      i := i + 1;
    }
    assert curve == EquityCurve(bars, cfg);
    FirstBarPassThrough(bars, cfg);
    finalEquity := curve[|curve| - 1];
  }

  lemma CurveGrows(bars: seq<Bar>, cfg: Config, i: nat, curve: seq<real>, cash: real, units: real, price: real, entry: real)
    requires PositivePrices(bars) && i < |bars|
    requires curve == EquityCurve(bars, cfg)[..i]
    requires State(cash, units) == StateAt(bars, i + 1, cfg)
    requires price == bars[i].close && entry == cash + units * price
    ensures curve + [entry] == EquityCurve(bars, cfg)[..i + 1]
  {
    var full := EquityCurve(bars, cfg);
    var st := State(cash, units);
    assert full[i] == Equity(st, price);
    assert Equity(st, price) == entry;
    assert full[..i + 1] == full[..i] + [full[i]];
  }

  /**
   * The body of the loop for one bar: pass through on the first bar or a
   * missing signal, otherwise buy when flat on signal 1 or sell the whole lot
   * when holding on signal -1.
   */
  method ApplyBar(capital: real, position: real, bar: Bar, first: bool, cfg: Config)
    returns (capital': real, position': real)
    requires bar.close > 0.0
    ensures State(capital', position') == Step(State(capital, position), bar, first, cfg)
  {
    capital', position' := capital, position;
    if bar.signal.Missing? || first {
      return;
    }
    var price := bar.close;
    var signal := bar.signal.value;
    if signal == 1 && position == 0.0 {
      var buyAmount := capital * cfg.positionSize;
      BuyRule(State(capital, position), bar, cfg);
      position' := (buyAmount * (1.0 - cfg.slippage)) / price;
      capital' := capital - buyAmount;
    } else if signal == -1 && position > 0.0 {
      var sellAmount := position * price * (1.0 - cfg.slippage);
      SellRule(State(capital, position), bar, cfg);
      capital' := capital + sellAmount;
      position' := 0.0;
    }
  }

  /** `(final_equity - INITIAL_CAPITAL) / INITIAL_CAPITAL` (backtest/__init__.py:100). */
  function ReturnRate(finalEquity: real, initialCapital: real): (r: real)
    requires initialCapital != 0.0
    ensures finalEquity == initialCapital * (1.0 + r)
    ensures r == 0.0 <==> finalEquity == initialCapital
    ensures initialCapital > 0.0 ==> (r > 0.0 <==> finalEquity > initialCapital)
  {
    (finalEquity - initialCapital) / initialCapital
  }

  // ---------------------------------------------------------------------
  // The rules of one bar

  /** A buy when flat: cash shrinks by the position fraction, the lot is the spent amount net of slippage. */
  lemma BuyRule(s: State, bar: Bar, cfg: Config)
    requires bar.close > 0.0
    requires bar.signal == Sig(1) && s.units == 0.0
    ensures Step(s, bar, false, cfg)
      == State(s.cash * (1.0 - cfg.positionSize), s.cash * cfg.positionSize * (1.0 - cfg.slippage) / bar.close)
  {
    Distribute(s.cash, cfg.positionSize);
  }

  /** A buy never borrows: from non-negative cash both cash and units stay non-negative, and the lot is positive when cash is. */
  lemma BuyNeverBorrows(s: State, bar: Bar, cfg: Config)
    requires ValidConfig(cfg) && bar.close > 0.0
    requires bar.signal == Sig(1) && s.units == 0.0 && s.cash >= 0.0
    ensures var t := Step(s, bar, false, cfg);
      t.cash >= 0.0 && t.units >= 0.0 && (s.cash > 0.0 && cfg.slippage < 1.0 ==> t.units > 0.0)
  {
    BuyRule(s, bar, cfg);
    var buyAmount := s.cash * cfg.positionSize;
    var lot := buyAmount * (1.0 - cfg.slippage);
    MulNonNegative(s.cash, cfg.positionSize);
    MulNonNegative(buyAmount, 1.0 - cfg.slippage);
    DivNonNegative(lot, bar.close);
    MulNonNegative(s.cash, 1.0 - cfg.positionSize);
    if s.cash > 0.0 && cfg.slippage < 1.0 {
      MulPositive(s.cash, cfg.positionSize);
      MulPositive(buyAmount, 1.0 - cfg.slippage);
      DivPositive(lot, bar.close);
    }
  }

  /** A buy signal while holding changes nothing: no pyramiding. */
  lemma NoPyramiding(s: State, bar: Bar, first: bool, cfg: Config)
    requires bar.close > 0.0 && bar.signal == Sig(1) && s.units > 0.0
    ensures Step(s, bar, first, cfg) == s
  {
  }

  /** A sell when holding: the whole lot is sold at the close less slippage. */
  lemma SellRule(s: State, bar: Bar, cfg: Config)
    requires bar.close > 0.0 && bar.signal == Sig(-1) && s.units > 0.0
    ensures Step(s, bar, false, cfg) == State(s.cash + s.units * bar.close * (1.0 - cfg.slippage), 0.0)
  {
  }

  /** Slippage costs a buy exactly `buyAmount * slippage` of equity at the trade price. */
  lemma BuySlippageCost(s: State, bar: Bar, cfg: Config)
    requires bar.close > 0.0 && bar.signal == Sig(1) && s.units == 0.0
    ensures Equity(Step(s, bar, false, cfg), bar.close)
      == Equity(s, bar.close) - s.cash * cfg.positionSize * cfg.slippage
  {
    var b := s.cash * cfg.positionSize;
    assert b * (1.0 - cfg.slippage) / bar.close * bar.close == b * (1.0 - cfg.slippage);
  }

  /** Slippage costs a sell exactly `units * price * slippage` of equity. */
  lemma SellSlippageCost(s: State, bar: Bar, cfg: Config)
    requires bar.close > 0.0 && bar.signal == Sig(-1) && s.units > 0.0
    ensures Equity(Step(s, bar, false, cfg), bar.close)
      == Equity(s, bar.close) - s.units * bar.close * cfg.slippage
  {
  }

  /** More slippage, all else equal, buys strictly fewer units. */
  lemma SlippageReducesUnitsBought(s: State, bar: Bar, cfg: Config, higher: real)
    requires ValidConfig(cfg) && bar.close > 0.0
    requires bar.signal == Sig(1) && s.units == 0.0 && s.cash > 0.0
    requires cfg.slippage < higher
    ensures Step(s, bar, false, cfg.(slippage := higher)).units < Step(s, bar, false, cfg).units
  {
    var b := s.cash * cfg.positionSize;
    assert b > 0.0;
    assert b * (1.0 - higher) < b * (1.0 - cfg.slippage);
    DivideLess(b * (1.0 - higher), b * (1.0 - cfg.slippage), bar.close);
  }

  /** More slippage, all else equal, brings strictly less cash from a sell. */
  lemma SlippageReducesSaleProceeds(s: State, bar: Bar, cfg: Config, higher: real)
    requires bar.close > 0.0 && bar.signal == Sig(-1) && s.units > 0.0
    requires cfg.slippage < higher
    ensures Step(s, bar, false, cfg.(slippage := higher)).cash < Step(s, bar, false, cfg).cash
  {
    var v := s.units * bar.close;
    MulPositive(s.units, bar.close);
    assert v * (1.0 - higher) < v * (1.0 - cfg.slippage) by {
      MulPositive(v, higher - cfg.slippage);
    }
    assert Step(s, bar, false, cfg).cash == s.cash + v * (1.0 - cfg.slippage);
    assert Step(s, bar, false, cfg.(slippage := higher)).cash == s.cash + v * (1.0 - higher);
  }

  lemma Distribute(x: real, f: real)
    ensures x - x * f == x * (1.0 - f)
  {
  }

  lemma MulNonNegative(x: real, y: real)
    requires x >= 0.0 && y >= 0.0
    ensures x * y >= 0.0
  {
  }

  lemma MulPositive(x: real, y: real)
    requires x > 0.0 && y > 0.0
    ensures x * y > 0.0
  {
  }

  lemma DivNonNegative(x: real, d: real)
    requires x >= 0.0 && d > 0.0
    ensures x / d >= 0.0
  {
  }

  lemma DivPositive(x: real, d: real)
    requires x > 0.0 && d > 0.0
    ensures x / d > 0.0
  {
  }

  lemma DivideLess(x: real, y: real, d: real)
    requires x < y && d > 0.0
    ensures x / d < y / d
  {
    assert (y - x) / d > 0.0;
  }

  // ---------------------------------------------------------------------
  // The whole run

  /** Cash and units never go negative when the run starts with non-negative capital. */
  lemma {:induction false} StateNonNegative(bars: seq<Bar>, n: nat, cfg: Config)
    requires ValidConfig(cfg) && PositivePrices(bars) && n <= |bars|
    requires cfg.initialCapital >= 0.0
    ensures StateAt(bars, n, cfg).cash >= 0.0 && StateAt(bars, n, cfg).units >= 0.0
  {
    if n > 0 {
      StateNonNegative(bars, n - 1, cfg);
      var s := StateAt(bars, n - 1, cfg);
      var bar := bars[n - 1];
      if !(bar.signal.Missing? || n == 1) && bar.signal.value == 1 && s.units == 0.0 {
        BuyNeverBorrows(s, bar, cfg);
      } else if !(bar.signal.Missing? || n == 1) && bar.signal.value == -1 && s.units > 0.0 {
        MulNonNegative(s.units * bar.close, 1.0 - cfg.slippage);
      }
    }
  }

  /** Bar 0 never trades, so the first curve entry is the initial capital. */
  lemma FirstBarPassThrough(bars: seq<Bar>, cfg: Config)
    requires |bars| > 0 && PositivePrices(bars)
    ensures StateAt(bars, 1, cfg) == Initial(cfg)
    ensures EquityCurve(bars, cfg)[0] == cfg.initialCapital
  {
  }

  /** No bar after bar 0 carries signal 1. */
  predicate NoBuySignal(bars: seq<Bar>)
  {
    forall i :: 1 <= i < |bars| ==> bars[i].signal != Sig(1)
  }

  /** Without a buy signal after bar 0 nothing ever trades: the state stays the initial one. */
  lemma {:induction false} NoBuyKeepsInitialState(bars: seq<Bar>, n: nat, cfg: Config)
    requires PositivePrices(bars) && n <= |bars| && NoBuySignal(bars)
    ensures StateAt(bars, n, cfg) == Initial(cfg)
  {
    if n > 0 {
      NoBuyKeepsInitialState(bars, n - 1, cfg);
    }
  }

  /** Without a buy signal every equity entry equals the initial capital. */
  lemma NoBuyFlatCurve(bars: seq<Bar>, cfg: Config)
    requires PositivePrices(bars) && NoBuySignal(bars)
    ensures forall i :: 0 <= i < |bars| ==> EquityCurve(bars, cfg)[i] == cfg.initialCapital
  {
    forall i | 0 <= i < |bars|
      ensures EquityCurve(bars, cfg)[i] == cfg.initialCapital
    {
      NoBuyKeepsInitialState(bars, i + 1, cfg);
    }
  }

  /** None of the bars m..n-1 carries signal -1. */
  predicate NoSellSignalBetween(bars: seq<Bar>, m: nat, n: nat)
    requires m <= n <= |bars|
  {
    forall i :: m <= i < n ==> bars[i].signal != Sig(-1)
  }

  /** With no sell signal on bars m..n-1, a position open after the first m bars is kept untouched, with the cash, through the first n bars. */
  lemma {:induction false} HeldLotUnchanged(bars: seq<Bar>, m: nat, n: nat, cfg: Config)
    requires PositivePrices(bars) && m <= n <= |bars|
    requires StateAt(bars, m, cfg).units > 0.0
    requires NoSellSignalBetween(bars, m, n)
    ensures StateAt(bars, n, cfg) == StateAt(bars, m, cfg)
  {
    if n > m {
      HeldLotUnchanged(bars, m, n - 1, cfg);
    }
  }

  // ---------------------------------------------------------------------
  // Connection to the strategy

  /** The engine's input built from the strategy's frame: each row's close and its numeric signal. */
  function FromStrategy(rows: seq<Strategy.Row>): (bars: seq<Bar>)
    ensures |bars| == |rows|
    ensures forall i :: 0 <= i < |bars| ==> bars[i] == Bar(rows[i].close, Sig(rows[i].signal))
  {
    seq(|rows|, i requires 0 <= i < |rows| => Bar(rows[i].close, Sig(rows[i].signal)))
  }

  /** Positive closes give a frame the engine accepts, with no missing signal for the isna guard to catch. */
  lemma StrategyFrameIsEngineInput(closes: seq<real>, shortW: nat, longW: nat)
    requires 0 < shortW && 0 < longW
    requires forall i :: 0 <= i < |closes| ==> closes[i] > 0.0
    ensures var bars := FromStrategy(Strategy.MovingAverageStrategy(closes, shortW, longW));
      PositivePrices(bars) && forall i :: 0 <= i < |bars| ==> !bars[i].signal.Missing?
  {
  }

  /** The program's own settings satisfy the engine's parameter ranges. */
  lemma DefaultConfigValid()
    ensures ValidConfig(DefaultConfig) && DefaultConfig.initialCapital > 0.0
  {
  }

  /**
   * With the program's windows (12 and 26), a frame of positive closes is
   * accepted by the engine, and its first 25 bars carry signal 0, so they
   * never trade.
   */
  lemma ProgramFrameIsEngineInput(closes: seq<real>, i: nat)
    requires forall k :: 0 <= k < |closes| ==> closes[k] > 0.0
    requires i < |closes|
    ensures var bars := FromStrategy(Strategy.MovingAverageStrategy(closes, Strategy.ShortWindow, Strategy.LongWindow));
      PositivePrices(bars) && !bars[i].signal.Missing? &&
      (i + 1 < Strategy.LongWindow ==> bars[i].signal == Sig(0))
  {
    StrategyFrameIsEngineInput(closes, Strategy.ShortWindow, Strategy.LongWindow);
    Strategy.SignalsOfFrame(closes, Strategy.ShortWindow, Strategy.LongWindow, i);
  }

  // ---------------------------------------------------------------------
  // Worked examples

  /** [no signal, buy, sell] at closes [100, 100, 110] with 1000 capital, 20% sizing, no slippage: final equity 1020, a 2% return. */
  lemma RoundTripExample()
    ensures var bars := [Bar(100.0, Missing), Bar(100.0, Sig(1)), Bar(110.0, Sig(-1))];
      var cfg := Config(1000.0, 0.2, 0.0);
      EquityCurve(bars, cfg) == [1000.0, 1000.0, 1020.0] &&
      ReturnRate(EquityCurve(bars, cfg)[2], cfg.initialCapital) == 0.02
  {
    var bars := [Bar(100.0, Missing), Bar(100.0, Sig(1)), Bar(110.0, Sig(-1))];
    var cfg := Config(1000.0, 0.2, 0.0);
    assert StateAt(bars, 1, cfg) == State(1000.0, 0.0);
    assert StateAt(bars, 2, cfg) == State(800.0, 2.0);
    assert StateAt(bars, 3, cfg) == State(1020.0, 0.0);
    var curve := EquityCurve(bars, cfg);
    assert curve[0] == 1000.0 && curve[1] == 1000.0 && curve[2] == 1020.0;
  }

  /** [no signal, buy, buy]: the second buy leaves cash and units as after the first. */
  lemma NoReentryExample()
    ensures var bars := [Bar(100.0, Missing), Bar(100.0, Sig(1)), Bar(100.0, Sig(1))];
      var cfg := Config(1000.0, 0.2, 0.0);
      StateAt(bars, 3, cfg) == StateAt(bars, 2, cfg) == State(800.0, 2.0)
  {
    var bars := [Bar(100.0, Missing), Bar(100.0, Sig(1)), Bar(100.0, Sig(1))];
    var cfg := Config(1000.0, 0.2, 0.0);
    assert StateAt(bars, 1, cfg) == State(1000.0, 0.0);
    assert StateAt(bars, 2, cfg) == State(800.0, 2.0);
    NoPyramiding(StateAt(bars, 2, cfg), bars[2], false, cfg);
    assert StateAt(bars, 3, cfg) == Step(StateAt(bars, 2, cfg), bars[2], false, cfg);
  }
}
