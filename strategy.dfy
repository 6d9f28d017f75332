/**
 * The dual moving-average signal rule of `moving_average_strategy`
 * (backtest/__init__.py:30-43): two trailing simple moving averages of the
 * closing price and a per-bar signal in {-1, 0, 1}.
 */
module Strategy {
  import opened Wrappers

  /** Window lengths used by the program (MA12 and MA26). */
  const ShortWindow: nat := 12
  const LongWindow: nat := 26

  /** Sum of a sequence, folded from the right end. */
  function Sum(s: seq<real>): real
  {
    if s == [] then 0.0 else Sum(s[..|s| - 1]) + s[|s| - 1]
  }

  /**
   * `closes.rolling(window = w).mean()` at bar i: the mean of the last w
   * closes up to and including bar i, undefined (NaN) while fewer than w
   * bars exist (pandas' default `min_periods = window`).
   */
  function RollingMean(closes: seq<real>, w: nat, i: nat): (r: Option<real>)
    requires 0 < w && i < |closes|
    ensures r.Some? <==> w <= i + 1
  {
    if i + 1 < w then None else Some(Sum(closes[i + 1 - w .. i + 1]) / (w as real))
  }

  /** `a > b` on two pandas columns: any comparison with NaN is false. */
  predicate Above(a: Option<real>, b: Option<real>)
  {
    a.Some? && b.Some? && a.value > b.value
  }

  /** `close < b`, false when b is NaN. */
  predicate Below(close: real, b: Option<real>)
  {
    b.Some? && close < b.value
  }

  /**
   * The signal of one bar, assigned in the program's order: 0 first, then 1
   * where MA12 > MA26, then -1 where close < MA26, the later assignment
   * overwriting the earlier one.
   */
  function Classify(close: real, maShort: Option<real>, maLong: Option<real>): (r: int)
    ensures r == -1 <==> Below(close, maLong)
    ensures r == 1 <==> Above(maShort, maLong) && !Below(close, maLong)
    ensures r == 0 <==> !Above(maShort, maLong) && !Below(close, maLong)
    ensures maLong.None? ==> r == 0
  {
    var prefilled := 0;
    var afterBuyRule := if Above(maShort, maLong) then 1 else prefilled;
    if Below(close, maLong) then -1 else afterBuyRule
  }

  /** One row of the frame after `moving_average_strategy`. */
  datatype Row = Row(close: real, maShort: Option<real>, maLong: Option<real>, signal: int)

  /** The frame the strategy returns: one row per close, in input order. */
  function MovingAverageStrategy(closes: seq<real>, shortW: nat, longW: nat): (rows: seq<Row>)
    requires 0 < shortW && 0 < longW
    ensures |rows| == |closes|
    ensures forall i :: 0 <= i < |rows| ==> rows[i].close == closes[i]
    ensures forall i :: 0 <= i < |rows| ==>
      rows[i].maShort == RollingMean(closes, shortW, i) && rows[i].maLong == RollingMean(closes, longW, i) &&
      rows[i].signal == Classify(rows[i].close, rows[i].maShort, rows[i].maLong)
  {
    seq(|closes|, i requires 0 <= i < |closes| =>
      var ms := RollingMean(closes, shortW, i);
      var ml := RollingMean(closes, longW, i);
      Row(closes[i], ms, ml, Classify(closes[i], ms, ml)))
  }

  /** Bounds on a sum from bounds on its terms. */
  lemma {:induction false} SumBetween(s: seq<real>, lo: real, hi: real)
    requires forall k :: 0 <= k < |s| ==> lo <= s[k] <= hi
    ensures (|s| as real) * lo <= Sum(s) <= (|s| as real) * hi
  {
    if s != [] {
      SumBetween(s[..|s| - 1], lo, hi);
    }
  }

  /** A defined moving average lies between the least and the greatest close of its window. */
  lemma RollingMeanBetween(closes: seq<real>, w: nat, i: nat, lo: real, hi: real)
    requires 0 < w && w <= i + 1 && i < |closes|
    requires forall k :: i + 1 - w <= k <= i ==> lo <= closes[k] <= hi
    ensures RollingMean(closes, w, i).Some?
    ensures lo <= RollingMean(closes, w, i).value <= hi
  {
    var window := closes[i + 1 - w .. i + 1];
    assert |window| == w;
    SumBetween(window, lo, hi);
    MeanBetween(Sum(window), w as real, lo, hi);
  }

  lemma MeanBetween(total: real, n: real, lo: real, hi: real)
    requires n > 0.0 && n * lo <= total <= n * hi
    ensures lo <= total / n <= hi
  {
    var m := total / n;
    assert total == m * n;
    assert n * (m - lo) >= 0.0;
    assert n * (hi - m) >= 0.0;
  }

  /** Every signal of the strategy's frame is -1, 0 or 1, and it is 0 while the long average is still warming up. */
  lemma SignalsOfFrame(closes: seq<real>, shortW: nat, longW: nat, i: nat)
    requires 0 < shortW && 0 < longW && i < |closes|
    ensures var rows := MovingAverageStrategy(closes, shortW, longW);
      -1 <= rows[i].signal <= 1 && (i + 1 < longW ==> rows[i].signal == 0)
  {
  }

  /** Sell wins: a bar with MA12 above MA26 and its close below MA26 is a sell. */
  lemma SellOverridesBuy(close: real, maShort: Option<real>, maLong: Option<real>)
    requires Above(maShort, maLong) && Below(close, maLong)
    ensures Classify(close, maShort, maLong) == -1
  {
  }
}
