/**
 * Williams %R (backend/indicators/williams_r.py): how far the close sits below
 * the highest high of the trailing window, as a fraction of the window's range,
 * times -100.
 */
module WilliamsR {
  import opened Wrappers
  import opened Series

  lemma RatioBounds(hh: real, ll: real, c: real)
    requires hh - ll != 0.0
    ensures ll <= c <= hh ==> -100.0 <= (hh - c) / (hh - ll) * -100.0 <= 0.0
  {
    if ll <= c <= hh {
      DivBounds(hh - c, hh - ll, 0.0, 1.0);
    }
  }

  /** `(hh - c) / (hh - ll).replace(0, nan) * -100` at one position. */
  function PercentR(hh: Option<real>, ll: Option<real>, c: real): (r: Option<real>)
    ensures r.Some? <==> hh.Some? && ll.Some? && hh.value - ll.value != 0.0
    ensures r.Some? && ll.value <= c <= hh.value ==> -100.0 <= r.value <= 0.0
  {
    if hh.Some? && ll.Some? && hh.value - ll.value != 0.0 then
      RatioBounds(hh.value, ll.value, c);
      Some((hh.value - c) / (hh.value - ll.value) * -100.0)
    else None
  }

  /** `williams_r.calculate(df, period)` */
  function WilliamsRSeries(bars: seq<Bar>, period: nat): (r: Col)
    ensures |r| == |bars|
  {
    if |bars| < period then NoneSeries(|bars|)
    else
      var hh, ll := RollingMax(Highs(bars), period), RollingMin(Lows(bars), period);
      seq(|bars|, i requires 0 <= i < |bars| => PercentR(hh[i], ll[i], bars[i].close))
  }

  /** Past the gate, position i is the formula applied to the window extremes. */
  lemma PercentRAt(bars: seq<Bar>, period: nat, i: nat)
    requires |bars| >= period && i < |bars|
    ensures WilliamsRSeries(bars, period)[i]
            == PercentR(RollingMax(Highs(bars), period)[i], RollingMin(Lows(bars), period)[i], bars[i].close)
  {
  }

  /** With every bar's close inside its own range, %R lies in [-100, 0]. */
  lemma WilliamsRRange(bars: seq<Bar>, period: nat)
    requires forall i :: 0 <= i < |bars| ==> WellFormed(bars[i])
    ensures DefinedWithin(WilliamsRSeries(bars, period), -100.0, 0.0)
  {
    var r := WilliamsRSeries(bars, period);
    if |bars| >= period {
      var highs, lows := Highs(bars), Lows(bars);
      var hh, ll := RollingMax(highs, period), RollingMin(lows, period);
      forall i | 0 <= i < |r| && r[i].Some? ensures -100.0 <= r[i].value <= 0.0 {
        assert r[i] == PercentR(hh[i], ll[i], bars[i].close);
        var hw, lw := Window(highs, period, i), Window(lows, period, i);
        assert hh[i] == Some(MaxOf(hw)) && ll[i] == Some(MinOf(lw));
        assert hw[period - 1] == highs[i] && lw[period - 1] == lows[i];
        assert WellFormed(bars[i]);
      }
    }
  }

  /** %R is defined exactly where a full window has a non-zero range. */
  lemma WilliamsRDefinedIff(bars: seq<Bar>, period: nat, i: nat)
    requires i < |bars|
    ensures WilliamsRSeries(bars, period)[i].Some? <==>
              |bars| >= period && 1 <= period <= i + 1
              && MaxOf(Window(Highs(bars), period, i)) != MinOf(Window(Lows(bars), period, i))
  {
    if |bars| >= period && 1 <= period <= i + 1 {
      var highs, lows := Highs(bars), Lows(bars);
      AllSomeFullWindow(highs, period, i);
      AllSomeFullWindow(lows, period, i);
      var hh, ll := RollingMax(highs, period), RollingMin(lows, period);
      assert hh[i] == Some(MaxOf(Window(highs, period, i)));
      assert ll[i] == Some(MinOf(Window(lows, period, i)));
      PercentRAt(bars, period, i);
    }
  }

  /** Fewer bars than the window gives an all-NaN result. */
  lemma TooFewBars(bars: seq<Bar>, period: nat)
    requires |bars| < period
    ensures AllNone(WilliamsRSeries(bars, period))
  {
  }
}
