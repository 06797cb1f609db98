/**
 * pandas Series of floats as sequences of optional reals: `None` is NaN.
 * Element-wise differences, NaN-skipping means and trailing windows with
 * `min_periods` equal to the window, which is how every indicator uses them.
 */
module Series {
  import opened Wrappers

  type Col = seq<Option<real>>

  /** One row of an OHLCV frame (a day, or a resampled week or month). */
  datatype Bar = Bar(open: real, high: real, low: real, close: real, volume: real)

  /** A bar whose open and close lie inside its low..high range. */
  predicate WellFormed(b: Bar) {
    b.low <= b.open <= b.high && b.low <= b.close <= b.high
  }

  function Closes(bars: seq<Bar>): (r: Col)
    ensures |r| == |bars| && AllSome(r)
    ensures forall i :: 0 <= i < |bars| ==> r[i] == Some(bars[i].close)
  {
    seq(|bars|, i requires 0 <= i < |bars| => Some(bars[i].close))
  }

  function Highs(bars: seq<Bar>): (r: Col)
    ensures |r| == |bars| && AllSome(r)
    ensures forall i :: 0 <= i < |bars| ==> r[i] == Some(bars[i].high)
  {
    seq(|bars|, i requires 0 <= i < |bars| => Some(bars[i].high))
  }

  function Lows(bars: seq<Bar>): (r: Col)
    ensures |r| == |bars| && AllSome(r)
    ensures forall i :: 0 <= i < |bars| ==> r[i] == Some(bars[i].low)
  {
    seq(|bars|, i requires 0 <= i < |bars| => Some(bars[i].low))
  }

  /** `pd.Series(dtype=float, index=...)`: n NaNs. */
  function NoneSeries(n: nat): (r: Col)
    ensures |r| == n && AllNone(r)
  {
    seq(n, _ => None)
  }

  predicate AllNone(xs: Col) { forall i :: 0 <= i < |xs| ==> xs[i].None? }

  predicate AllSome(xs: Col) { forall i :: 0 <= i < |xs| ==> xs[i].Some? }

  /** Lifts a column of plain reals. */
  function Lift(xs: seq<real>): (r: Col)
    ensures |r| == |xs| && AllSome(r)
    ensures forall i :: 0 <= i < |xs| ==> r[i] == Some(xs[i])
  {
    seq(|xs|, i requires 0 <= i < |xs| => Some(xs[i]))
  }

  /** `b - a` with NaN propagation. */
  function Sub(b: Option<real>, a: Option<real>): (r: Option<real>)
    ensures r.Some? <==> a.Some? && b.Some?
  {
    if a.Some? && b.Some? then Some(b.value - a.value) else None
  }

  /** `s.diff()`: NaN at position 0. */
  function DiffSeries(xs: Col): (r: Col)
    ensures |r| == |xs| && (|xs| > 0 ==> r[0] == None)
    ensures forall i :: 0 < i < |xs| ==> r[i] == Sub(xs[i], xs[i - 1])
  {
    seq(|xs|, i requires 0 <= i < |xs| => if i == 0 then None else Sub(xs[i], xs[i - 1]))
  }

  /** Number of non-NaN entries (`s.count()`). */
  function CountSome(xs: Col): (n: nat)
    ensures n <= |xs|
  {
    if |xs| == 0 then 0 else CountSome(xs[..|xs| - 1]) + (if xs[|xs| - 1].Some? then 1 else 0)
  }

  /** Sum of non-NaN entries. */
  function SumSome(xs: Col): real {
    if |xs| == 0 then 0.0 else SumSome(xs[..|xs| - 1]) + xs[|xs| - 1].GetOr(0.0)
  }

  /** Summing a slice peels off its last element. */
  lemma SumSomeSliceLast(xs: Col, lo: nat, hi: nat)
    requires lo < hi <= |xs|
    ensures SumSome(xs[lo..hi]) == SumSome(xs[lo..hi - 1]) + xs[hi - 1].GetOr(0.0)
  {
    var s := xs[lo..hi];
    assert s[..|s| - 1] == xs[lo..hi - 1];
    assert s[|s| - 1] == xs[hi - 1];
  }

  /** `s.mean()` with `skipna=True`: NaN when no entry is defined. */
  function MeanSkipNa(xs: Col): Option<real> {
    var n := CountSome(xs);
    if n == 0 then None else Some(SumSome(xs) / n as real)
  }

  lemma {:induction false} CountSomeAllNone(xs: Col)
    ensures CountSome(xs) == 0 <==> AllNone(xs)
  {
    if |xs| > 0 {
      var init := xs[..|xs| - 1];
      CountSomeAllNone(init);
      assert AllNone(xs) <==> AllNone(init) && xs[|xs| - 1].None? by {
        assert forall i :: 0 <= i < |init| ==> init[i] == xs[i];
      }
    }
  }

  lemma {:induction false} CountSomeAllSome(xs: Col)
    requires AllSome(xs)
    ensures CountSome(xs) == |xs|
  {
    if |xs| > 0 {
      CountSomeAllSome(xs[..|xs| - 1]);
    }
  }

  /** Every defined entry lies in [lo, hi]. */
  predicate DefinedWithin(xs: Col, lo: real, hi: real) {
    forall i :: 0 <= i < |xs| && xs[i].Some? ==> lo <= xs[i].value <= hi
  }

  /** Every defined entry lies strictly below `hi`. */
  predicate DefinedBelow(xs: Col, hi: real) {
    forall i :: 0 <= i < |xs| && xs[i].Some? ==> xs[i].value < hi
  }

  lemma DefinedWithinPrefix(xs: Col, k: nat, lo: real, hi: real)
    requires k <= |xs| && DefinedWithin(xs, lo, hi)
    ensures DefinedWithin(xs[..k], lo, hi)
  {
    assert forall i :: 0 <= i < k ==> xs[..k][i] == xs[i];
  }

  /** k added once per defined entry: k times the count, kept linear for the solver. */
  function Scaled(xs: Col, k: real): real {
    if |xs| == 0 then 0.0 else Scaled(xs[..|xs| - 1], k) + (if xs[|xs| - 1].Some? then k else 0.0)
  }

  lemma Distrib(k: real, a: real, b: real)
    ensures k * (a + b) == k * a + k * b
  {
  }

  lemma {:induction false} ScaledIsProduct(xs: Col, k: real)
    ensures Scaled(xs, k) == k * CountSome(xs) as real
  {
    if |xs| > 0 {
      var init := xs[..|xs| - 1];
      ScaledIsProduct(init, k);
      var c := CountSome(init) as real;
      var d := if xs[|xs| - 1].Some? then 1.0 else 0.0;
      assert CountSome(xs) as real == c + d;
      Distrib(k, c, d);
    }
  }

  lemma {:induction false} SumSomeScaledBounds(xs: Col, lo: real, hi: real)
    requires DefinedWithin(xs, lo, hi)
    ensures Scaled(xs, lo) <= SumSome(xs) <= Scaled(xs, hi)
  {
    if |xs| > 0 {
      DefinedWithinPrefix(xs, |xs| - 1, lo, hi);
      SumSomeScaledBounds(xs[..|xs| - 1], lo, hi);
    }
  }

  lemma SumSomeBounds(xs: Col, lo: real, hi: real)
    requires DefinedWithin(xs, lo, hi)
    ensures lo * CountSome(xs) as real <= SumSome(xs) <= hi * CountSome(xs) as real
  {
    SumSomeScaledBounds(xs, lo, hi);
    ScaledIsProduct(xs, lo);
    ScaledIsProduct(xs, hi);
  }

  /** A NaN-skipping mean of values in [lo, hi] lies in [lo, hi]. */
  lemma MeanSkipNaBounds(xs: Col, lo: real, hi: real)
    requires DefinedWithin(xs, lo, hi)
    ensures MeanSkipNa(xs).Some? ==> lo <= MeanSkipNa(xs).value <= hi
  {
    SumSomeBounds(xs, lo, hi);
    var n := CountSome(xs) as real;
    if n > 0.0 {
      assert lo * n <= SumSome(xs) <= hi * n;
      DivBounds(SumSome(xs), n, lo, hi);
    }
  }

  lemma DivBounds(s: real, n: real, lo: real, hi: real)
    requires n > 0.0 && lo * n <= s <= hi * n
    ensures lo <= s / n <= hi
  {
  }

  /** Every defined entry is non-negative. */
  predicate NonNegative(xs: Col) {
    forall i :: 0 <= i < |xs| && xs[i].Some? ==> xs[i].value >= 0.0
  }

  lemma {:induction false} SumSomeNonNegative(xs: Col)
    requires NonNegative(xs)
    ensures SumSome(xs) >= 0.0
  {
    if |xs| > 0 {
      var init := xs[..|xs| - 1];
      assert NonNegative(init) by {
        assert forall i :: 0 <= i < |init| ==> init[i] == xs[i];
      }
      SumSomeNonNegative(init);
    }
  }

  lemma MeanSkipNaNonNegative(xs: Col)
    requires NonNegative(xs)
    ensures MeanSkipNa(xs).Some? ==> MeanSkipNa(xs).value >= 0.0
  {
    SumSomeNonNegative(xs);
  }

  lemma NonNegativeSlice(xs: Col, lo: nat, hi: nat)
    requires lo <= hi <= |xs| && NonNegative(xs)
    ensures NonNegative(xs[lo..hi])
  {
    forall j | 0 <= j < hi - lo ensures xs[lo..hi][j] == xs[lo + j] { }
  }

  /** Every defined entry is zero. */
  predicate DefinedZero(xs: Col) {
    forall i :: 0 <= i < |xs| && xs[i].Some? ==> xs[i].value == 0.0
  }

  lemma {:induction false} MeanSkipNaZero(xs: Col)
    requires DefinedZero(xs)
    ensures SumSome(xs) == 0.0
    ensures MeanSkipNa(xs).Some? ==> MeanSkipNa(xs).value == 0.0
  {
    if |xs| > 0 {
      var init := xs[..|xs| - 1];
      assert DefinedZero(init) by {
        assert forall i :: 0 <= i < |init| ==> init[i] == xs[i];
      }
      MeanSkipNaZero(init);
    }
  }

  lemma DefinedZeroSlice(xs: Col, lo: nat, hi: nat)
    requires lo <= hi <= |xs| && DefinedZero(xs)
    ensures DefinedZero(xs[lo..hi])
  {
    forall j | 0 <= j < hi - lo ensures xs[lo..hi][j] == xs[lo + j] { }
  }

  // ---- trailing windows ----

  /** The `w` entries ending at position i. */
  function Window(xs: Col, w: nat, i: nat): (r: Col)
    requires 1 <= w <= i + 1 <= |xs|
    ensures |r| == w
    ensures forall j :: 0 <= j < w ==> r[j] == xs[i + 1 - w + j]
  {
    xs[i + 1 - w .. i + 1]
  }

  /** A full window: `rolling(window=w, min_periods=w)` yields a value at i only then. */
  predicate FullWindow(xs: Col, w: nat, i: nat)
    requires i < |xs|
  {
    1 <= w <= i + 1 && AllSome(Window(xs, w, i))
  }

  function MinOf(xs: Col): (m: real)
    requires |xs| > 0 && AllSome(xs)
    ensures forall j :: 0 <= j < |xs| ==> m <= xs[j].value
    ensures exists j :: 0 <= j < |xs| && m == xs[j].value
  {
    if |xs| == 1 then xs[0].value
    else
      var m := MinOf(xs[..|xs| - 1]);
      assert forall j :: 0 <= j < |xs| - 1 ==> xs[..|xs| - 1][j] == xs[j];
      if xs[|xs| - 1].value < m then xs[|xs| - 1].value else m
  }

  function MaxOf(xs: Col): (m: real)
    requires |xs| > 0 && AllSome(xs)
    ensures forall j :: 0 <= j < |xs| ==> xs[j].value <= m
    ensures exists j :: 0 <= j < |xs| && m == xs[j].value
  {
    if |xs| == 1 then xs[0].value
    else
      var m := MaxOf(xs[..|xs| - 1]);
      assert forall j :: 0 <= j < |xs| - 1 ==> xs[..|xs| - 1][j] == xs[j];
      if xs[|xs| - 1].value > m then xs[|xs| - 1].value else m
  }

  /** `rolling(w, min_periods=w).min()` */
  function RollingMin(xs: Col, w: nat): (r: Col)
    ensures |r| == |xs|
    ensures forall i :: 0 <= i < |xs| ==> (r[i].Some? <==> FullWindow(xs, w, i))
  {
    seq(|xs|, i requires 0 <= i < |xs| =>
      if FullWindow(xs, w, i) then Some(MinOf(Window(xs, w, i))) else None)
  }

  /** `rolling(w, min_periods=w).max()` */
  function RollingMax(xs: Col, w: nat): (r: Col)
    ensures |r| == |xs|
    ensures forall i :: 0 <= i < |xs| ==> (r[i].Some? <==> FullWindow(xs, w, i))
  {
    seq(|xs|, i requires 0 <= i < |xs| =>
      if FullWindow(xs, w, i) then Some(MaxOf(Window(xs, w, i))) else None)
  }

  /** Every window of a column without gaps is full. */
  lemma AllSomeFullWindow(xs: Col, w: nat, i: nat)
    requires AllSome(xs) && 1 <= w <= i + 1 <= |xs|
    ensures FullWindow(xs, w, i)
  {
    var win := Window(xs, w, i);
    forall j | 0 <= j < w ensures win[j].Some? {
      assert win[j] == xs[i + 1 - w + j];
    }
  }

  /** `rolling(w, min_periods=w).sum()` */
  function RollingSum(xs: Col, w: nat): (r: Col)
    ensures |r| == |xs|
    ensures forall i :: 0 <= i < |xs| ==> (r[i].Some? <==> FullWindow(xs, w, i))
  {
    seq(|xs|, i requires 0 <= i < |xs| =>
      if FullWindow(xs, w, i) then Some(SumSome(Window(xs, w, i))) else None)
  }

  /** `rolling(w, min_periods=w).mean()` */
  function RollingMean(xs: Col, w: nat): (r: Col)
    ensures |r| == |xs|
    ensures forall i :: 0 <= i < |xs| ==> (r[i].Some? <==> FullWindow(xs, w, i))
  {
    seq(|xs|, i requires 0 <= i < |xs| =>
      if FullWindow(xs, w, i) then Some(SumSome(Window(xs, w, i)) / w as real) else None)
  }

  /** A rolling mean of values in [lo, hi] stays in [lo, hi]. */
  lemma RollingMeanBounds(xs: Col, w: nat, lo: real, hi: real)
    requires DefinedWithin(xs, lo, hi)
    ensures DefinedWithin(RollingMean(xs, w), lo, hi)
  {
    var r := RollingMean(xs, w);
    forall i | 0 <= i < |r| && r[i].Some? ensures lo <= r[i].value <= hi {
      var win := Window(xs, w, i);
      assert DefinedWithin(win, lo, hi) by {
        forall j | 0 <= j < |win| && win[j].Some? ensures lo <= win[j].value <= hi {
          assert win[j] == xs[i + 1 - w + j];
        }
      }
      WindowMeanBounds(win, lo, hi);
    }
  }

  /** The mean of a full window of values in [lo, hi] lies in [lo, hi]. */
  lemma WindowMeanBounds(win: Col, lo: real, hi: real)
    requires |win| >= 1 && AllSome(win) && DefinedWithin(win, lo, hi)
    ensures lo <= SumSome(win) / |win| as real <= hi
  {
    CountSomeAllSome(win);
    MeanSkipNaBounds(win, lo, hi);
    assert MeanSkipNa(win) == Some(SumSome(win) / |win| as real);
  }
}
