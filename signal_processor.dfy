/** The signal processor (`process_data`): a trailing rolling mean of the
    `close` column, a 0/1 signal per row that is 1 exactly when `close` is
    strictly above its rolling mean, the row count and the mean of the signal
    series. Prices are exact reals. */
module SignalProcessor {
  import opened Values
  import opened DataLoader

  function Sum(s: seq<real>): real {
    if |s| == 0 then 0.0 else s[0] + Sum(s[1..])
  }

  function SumInt(s: seq<int>): int {
    if |s| == 0 then 0 else s[0] + SumInt(s[1..])
  }

  /** The trailing window of `w` rows that ends at row `i`, row `i` included. */
  function Window(close: seq<real>, w: nat, i: nat): seq<real>
    requires 1 <= w <= i + 1 <= |close|
  {
    close[i + 1 - w .. i + 1]
  }

  /** `close.rolling(window=w).mean()`. The first `w - 1` rows have too little
      history and their mean is undefined (`None`, pandas' NaN); every later
      row's mean times `w` is the sum of its window. */
  function RollingMean(close: seq<real>, w: nat): (r: seq<Option<real>>)
    requires w >= 1
    ensures |r| == |close|
    ensures forall i | 0 <= i < |r| :: r[i].None? <==> i < w - 1
    ensures forall i | w - 1 <= i < |r| :: r[i].Some? && r[i].value * (w as real) == Sum(Window(close, w, i))
  {
    seq(|close|, i requires 0 <= i < |close| =>
      if i < w - 1 then None else Some(Sum(Window(close, w, i)) / (w as real)))
  }

  /** `(close > mean).astype(int)`, with the comparison against an undefined
      mean resolved to 0 explicitly. */
  function Above(close: seq<real>, mean: seq<Option<real>>): seq<int>
    requires |mean| == |close|
  {
    seq(|close|, i requires 0 <= i < |close| =>
      if mean[i].Some? && close[i] > mean[i].value then 1 else 0)
  }

  /** Strictly above the mean of `w` values is strictly above `1/w` of their sum. */
  lemma AboveMeanIffScaled(c: real, m: real, s: real, w: real)
    requires w > 0.0 && m * w == s
    ensures c > m <==> w * c > s
  {
  }

  /** The signal series: one 0/1 entry per row, and 0 on every warm-up row
      whatever its price. */
  function Signals(close: seq<real>, w: nat): (r: seq<int>)
    requires w >= 1
    ensures |r| == |close|
    ensures forall i | 0 <= i < |r| :: r[i] == 0 || r[i] == 1
    ensures forall i | 0 <= i < |r| && i < w - 1 :: r[i] == 0
  {
    Above(close, RollingMean(close, w))
  }

  /** Past warm-up, a row's signal is 1 exactly when `w` times its price
      exceeds the sum of its trailing window, i.e. when the price is strictly
      above the window's mean. */
  lemma SignalIffAboveWindowSum(close: seq<real>, w: nat, i: nat)
    requires 1 <= w <= i + 1 <= |close|
    ensures Signals(close, w)[i] == 1 <==> close[i] > Sum(Window(close, w, i)) / (w as real)
    ensures Signals(close, w)[i] == 1 <==> (w as real) * close[i] > Sum(Window(close, w, i))
  {
    var mean := RollingMean(close, w);
    AboveMeanIffScaled(close[i], mean[i].value, Sum(Window(close, w, i)), w as real);
  }

  /** The number of entries equal to 1. */
  function Ones(s: seq<int>): nat {
    if |s| == 0 then 0 else (if s[0] == 1 then 1 else 0) + Ones(s[1..])
  }

  /** A series with no entry equal to 1 counts no ones. */
  lemma {:induction false} NoOnes(s: seq<int>)
    requires forall i | 0 <= i < |s| :: s[i] != 1
    ensures Ones(s) == 0
  {
    if |s| > 0 {
      NoOnes(s[1..]);
    }
  }

  /** The sum of a 0/1 series is the number of its 1 entries. */
  lemma {:induction false} SumOfBitsCountsOnes(s: seq<int>)
    requires forall i | 0 <= i < |s| :: s[i] == 0 || s[i] == 1
    ensures SumInt(s) == Ones(s)
    ensures 0 <= Ones(s) <= |s|
  {
    if |s| > 0 {
      SumOfBitsCountsOnes(s[1..]);
    }
  }

  /** `signals.mean()` of a 0/1 series: the fraction of its rows that are 1,
      hence in [0, 1]; `None` is pandas' NaN mean of an empty series. */
  function SignalRate(signals: seq<int>): (r: Option<real>)
    requires forall i | 0 <= i < |signals| :: signals[i] == 0 || signals[i] == 1
    ensures r.None? <==> |signals| == 0
    ensures r.Some? ==> r.value * (|signals| as real) == Ones(signals) as real
    ensures r.Some? ==> 0.0 <= r.value <= 1.0
  {
    if |signals| == 0 then None
    else
      SumOfBitsCountsOnes(signals);
      FractionInUnitInterval(SumInt(signals) as real, |signals| as real);
      Some((SumInt(signals) as real) / (|signals| as real))
  }

  /** A part of a positive whole, divided by the whole, lies in [0, 1]. */
  lemma FractionInUnitInterval(part: real, whole: real)
    requires 0.0 <= part <= whole && whole > 0.0
    ensures (part / whole) * whole == part
    ensures 0.0 <= part / whole <= 1.0
  {
  }

  /** What `process_data` returns. */
  datatype Processed = Processed(rowsProcessed: nat, signalRate: Option<real>, signals: seq<int>)

  /** `process_data(df, seed, window)`. Seeding the global random generator is
      not modelled: nothing downstream consumes randomness, so `seed` does not
      influence the result. `rows_processed` counts every row, warm-up rows
      included; the rate is defined whenever the table has a row. */
  function ProcessData(df: Table, seed: Value, window: nat): (r: Processed)
    requires df.WellFormed() && "close" in df.columns && window >= 1
    ensures r.rowsProcessed == |df.rows| == |r.signals|
    ensures r.signals == Signals(CloseColumn(df), window)
    ensures r.signalRate == SignalRate(r.signals)
    ensures r.signalRate.Some? <==> |df.rows| > 0
    ensures r.signalRate.Some? ==> 0.0 <= r.signalRate.value <= 1.0
  {
    var signals := Signals(CloseColumn(df), window);
    Processed(|df.rows|, SignalRate(signals), signals)
  }

  /** A series shorter than the window never leaves warm-up: every signal is
      0 and so is the rate. */
  lemma ShortSeriesRateIsZero(close: seq<real>, w: nat)
    requires w >= 1 && 0 < |close| < w
    ensures forall i | 0 <= i < |close| :: Signals(close, w)[i] == 0
    ensures SignalRate(Signals(close, w)) == Some(0.0)
  {
    NoOnes(Signals(close, w));
  }

  /** The window is trailing: appending later rows never changes the signal
      of an earlier row (no look-ahead). */
  lemma {:induction false} SignalsArePrefixStable(close: seq<real>, later: seq<real>, w: nat)
    requires w >= 1
    ensures Signals(close + later, w)[..|close|] == Signals(close, w)
  {
    var longer := Signals(close + later, w);
    var shorter := Signals(close, w);
    forall i | 0 <= i < |close|
      ensures longer[i] == shorter[i]
    {
      if w - 1 <= i {
        assert Window(close + later, w, i) == Window(close, w, i);
      }
    }
  }

  /** The worked example: window 3 over closes 1, 2, 3, 2, 5. Rows 0 and 1 are
      warm-up; row 2 has mean 2 and row 4 mean 10/3, both below the close;
      row 3 has mean 7/3, above its close of 2. */
  lemma WorkedExample()
    ensures Signals([1.0, 2.0, 3.0, 2.0, 5.0], 3) == [0, 0, 1, 0, 1]
    ensures SignalRate([0, 0, 1, 0, 1]) == Some(0.4)
    ensures ProcessData(Table(["close"], [[1.0], [2.0], [3.0], [2.0], [5.0]]), Int(42), 3)
      == Processed(5, Some(0.4), [0, 0, 1, 0, 1])
  {
    var close := [1.0, 2.0, 3.0, 2.0, 5.0];
    var s := Signals(close, 3);
    assert Window(close, 3, 2) == [1.0, 2.0, 3.0];
    assert Window(close, 3, 3) == [2.0, 3.0, 2.0];
    assert Window(close, 3, 4) == [3.0, 2.0, 5.0];
    assert Sum([1.0, 2.0, 3.0]) == 6.0;
    assert Sum([2.0, 3.0, 2.0]) == 7.0;
    assert Sum([3.0, 2.0, 5.0]) == 10.0;
    assert s[2] == 1 && s[3] == 0 && s[4] == 1;
    assert Ones([0, 0, 1, 0, 1]) == 2;
    assert CloseColumn(Table(["close"], [[1.0], [2.0], [3.0], [2.0], [5.0]])) == close;
  }
}
