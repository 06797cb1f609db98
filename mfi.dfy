/**
 * Money Flow Index (backend/indicators/mfi.py). The typical price times volume
 * of a bar counts as positive flow when the typical price rose from the previous
 * bar, as negative flow when it fell; the index compares the two trailing sums.
 */
module Mfi {
  import opened Wrappers
  import opened Series
  import Rsi

  function TypicalPrice(b: Bar): real {
    (b.high + b.low + b.close) / 3.0
  }

  /** `raw_money_flow` where `typical_price.diff() > 0`, else 0 (bar 0 has no change). */
  function PositiveFlow(bars: seq<Bar>, i: nat): (r: real)
    requires i < |bars|
    ensures r != 0.0 ==> i > 0 && TypicalPrice(bars[i - 1]) < TypicalPrice(bars[i])
  {
    if i > 0 && TypicalPrice(bars[i]) - TypicalPrice(bars[i - 1]) > 0.0
    then TypicalPrice(bars[i]) * bars[i].volume else 0.0
  }

  /** `raw_money_flow` where `typical_price.diff() < 0`, else 0. */
  function NegativeFlow(bars: seq<Bar>, i: nat): (r: real)
    requires i < |bars|
    ensures r != 0.0 ==> i > 0 && TypicalPrice(bars[i]) < TypicalPrice(bars[i - 1])
  {
    if i > 0 && TypicalPrice(bars[i]) - TypicalPrice(bars[i - 1]) < 0.0
    then TypicalPrice(bars[i]) * bars[i].volume else 0.0
  }

  function PositiveFlows(bars: seq<Bar>): (r: Col)
    ensures |r| == |bars| && AllSome(r)
    ensures forall i :: 0 <= i < |bars| ==> r[i] == Some(PositiveFlow(bars, i))
  {
    seq(|bars|, i requires 0 <= i < |bars| => Some(PositiveFlow(bars, i)))
  }

  function NegativeFlows(bars: seq<Bar>): (r: Col)
    ensures |r| == |bars| && AllSome(r)
    ensures forall i :: 0 <= i < |bars| ==> r[i] == Some(NegativeFlow(bars, i))
  {
    seq(|bars|, i requires 0 <= i < |bars| => Some(NegativeFlow(bars, i)))
  }

  /**
   * The textbook index for non-negative flow sums: the positive share of all
   * flow, with 50 for a window without any flow.
   */
  function Reference(pos: real, neg: real): (r: real)
    requires pos >= 0.0 && neg >= 0.0
    ensures 0.0 <= r <= 100.0
    ensures neg == 0.0 && pos > 0.0 ==> r == 100.0
    ensures pos == 0.0 && neg > 0.0 ==> r == 0.0
    ensures pos == 0.0 && neg == 0.0 ==> r == 50.0
  {
    if pos + neg == 0.0 then 50.0
    else
      DivBounds(100.0 * pos, pos + neg, 0.0, 100.0);
      if neg == 0.0 then Rsi.DivByProduct(100.0, pos, 100.0 * pos); 100.0 * pos / (pos + neg)
      else 100.0 * pos / (pos + neg)
  }

  /**
   * One position of `mfi.calculate` after the ratio, the two fills and the clip.
   * A ratio of exactly -1 makes `100 / (1 + ratio)` infinite and the clip gives 0.
   */
  function MfiOf(sp: Option<real>, sn: Option<real>): (r: Option<real>)
    ensures r.Some? <==> sp.Some? && sn.Some? && (sn.value != 0.0 || sp.value >= 0.0)
    ensures r.Some? ==> 0.0 <= r.value <= 100.0
    ensures sp.Some? && sn.Some? && sp.value >= 0.0 && sn.value >= 0.0
            ==> r == Some(Reference(sp.value, sn.value))
  {
    if sp.None? || sn.None? then None
    else
      var p, n := sp.value, sn.value;
      if n != 0.0 then
        if 1.0 + p / n == 0.0 then Some(0.0)
        else if p >= 0.0 && n > 0.0 then
          Rsi.RsiFormula(p, n);
          Some(Clamp(0.0, 100.0, 100.0 - 100.0 / (1.0 + p / n)))
        else Some(Clamp(0.0, 100.0, 100.0 - 100.0 / (1.0 + p / n)))
      else if p > 0.0 then Some(100.0)
      else if p == 0.0 then Some(50.0)
      else None
  }

  /** `mfi.calculate(df, period)` */
  function MfiSeries(bars: seq<Bar>, period: nat): (r: Col)
    ensures |r| == |bars|
  {
    if |bars| < period + 1 then NoneSeries(|bars|)
    else
      var sp, sn := RollingSum(PositiveFlows(bars), period), RollingSum(NegativeFlows(bars), period);
      seq(|bars|, i requires 0 <= i < |bars| => MfiOf(sp[i], sn[i]))
  }

  /** Past the gate, position i of the index is the formula applied to the two window sums. */
  lemma MfiAt(bars: seq<Bar>, period: nat, i: nat)
    requires |bars| >= period + 1 && i < |bars|
    ensures MfiSeries(bars, period)[i]
            == MfiOf(RollingSum(PositiveFlows(bars), period)[i], RollingSum(NegativeFlows(bars), period)[i])
  {
  }

  /** Bars with a non-negative typical price and volume carry non-negative flow. */
  predicate NonNegativeBars(bars: seq<Bar>) {
    forall i :: 0 <= i < |bars| ==> TypicalPrice(bars[i]) >= 0.0 && bars[i].volume >= 0.0
  }

  // ---- properties ----

  /** A bar's flow is positive or negative, never both. */
  lemma FlowsExclusive(bars: seq<Bar>, i: nat)
    requires i < |bars|
    ensures PositiveFlow(bars, i) == 0.0 || NegativeFlow(bars, i) == 0.0
  {
  }

  /** Every defined MFI lies in [0, 100]. */
  lemma MfiRange(bars: seq<Bar>, period: nat)
    ensures DefinedWithin(MfiSeries(bars, period), 0.0, 100.0)
  {
  }

  lemma WindowNonNegative(xs: Col, w: nat, i: nat)
    requires 1 <= w <= i + 1 <= |xs| && NonNegative(xs)
    ensures NonNegative(Window(xs, w, i))
  {
    var win := Window(xs, w, i);
    forall j | 0 <= j < |win| && win[j].Some? ensures win[j].value >= 0.0 {
      assert win[j] == xs[i + 1 - w + j];
    }
  }

  /** Bars with non-negative prices and volumes carry non-negative flow in both columns. */
  lemma FlowsNonNegative(bars: seq<Bar>)
    requires NonNegativeBars(bars)
    ensures NonNegative(PositiveFlows(bars)) && NonNegative(NegativeFlows(bars))
  {
    forall j | 0 <= j < |bars|
      ensures PositiveFlow(bars, j) >= 0.0 && NegativeFlow(bars, j) >= 0.0
    {
      ProductNonNegative(TypicalPrice(bars[j]), bars[j].volume);
    }
  }

  lemma ProductNonNegative(a: real, b: real)
    requires a >= 0.0 && b >= 0.0
    ensures a * b >= 0.0
  {
  }

  /**
   * With non-negative prices and volumes, past the warm-up every MFI is
   * defined and equals the textbook share of positive flow in the window.
   */
  lemma MfiIsReference(bars: seq<Bar>, period: nat, i: nat)
    requires NonNegativeBars(bars)
    requires |bars| >= period + 1 && 1 <= period <= i + 1 && i < |bars|
    ensures var pos, neg := Window(PositiveFlows(bars), period, i), Window(NegativeFlows(bars), period, i);
            SumSome(pos) >= 0.0 && SumSome(neg) >= 0.0
            && MfiSeries(bars, period)[i] == Some(Reference(SumSome(pos), SumSome(neg)))
  {
    var pf, nf := PositiveFlows(bars), NegativeFlows(bars);
    FlowsNonNegative(bars);
    var pos, neg := Window(pf, period, i), Window(nf, period, i);
    WindowNonNegative(pf, period, i);
    WindowNonNegative(nf, period, i);
    SumSomeNonNegative(pos);
    SumSomeNonNegative(neg);
    AllSomeFullWindow(pf, period, i);
    AllSomeFullWindow(nf, period, i);
    var sp, sn := RollingSum(pf, period), RollingSum(nf, period);
    assert sp[i] == Some(SumSome(pos));
    assert sn[i] == Some(SumSome(neg));
    MfiAt(bars, period, i);
  }

  /** The first `period - 1` positions never have a full window. */
  lemma WarmUpUndefined(bars: seq<Bar>, period: nat, i: nat)
    requires i < |bars| && i + 1 < period
    ensures MfiSeries(bars, period)[i].None?
  {
  }

  /** A window whose typical price never changed has no flow at all. */
  lemma FlatWindowNoFlow(bars: seq<Bar>, period: nat, i: nat)
    requires 1 <= period <= i + 1 && i < |bars|
    requires forall j :: i + 1 - period <= j <= i && j > 0 ==> TypicalPrice(bars[j]) == TypicalPrice(bars[j - 1])
    ensures SumSome(Window(PositiveFlows(bars), period, i)) == 0.0
    ensures SumSome(Window(NegativeFlows(bars), period, i)) == 0.0
  {
    var pf, nf := PositiveFlows(bars), NegativeFlows(bars);
    var pos, neg := Window(pf, period, i), Window(nf, period, i);
    assert DefinedZero(pos) && DefinedZero(neg) by {
      forall j | 0 <= j < period
        ensures pos[j].value == 0.0 && neg[j].value == 0.0
      {
        assert pos[j] == pf[i + 1 - period + j] && neg[j] == nf[i + 1 - period + j];
      }
    }
    MeanSkipNaZero(pos);
    MeanSkipNaZero(neg);
  }

  /** A window whose typical price never changed scores 50. */
  lemma FlatWindowScoresFifty(bars: seq<Bar>, period: nat, i: nat)
    requires |bars| >= period + 1 && 1 <= period <= i + 1 && i < |bars|
    requires forall j :: i + 1 - period <= j <= i && j > 0 ==> TypicalPrice(bars[j]) == TypicalPrice(bars[j - 1])
    ensures MfiSeries(bars, period)[i] == Some(50.0)
  {
    FlatWindowNoFlow(bars, period, i);
    MfiAt(bars, period, i);
  }

  /** Too few bars for one change-window gives an all-NaN result. */
  lemma TooFewBars(bars: seq<Bar>, period: nat)
    requires |bars| < period + 1
    ensures AllNone(MfiSeries(bars, period))
  {
  }
}
