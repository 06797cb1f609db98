/**
 * Relative Vigor Index main line (backend/indicators/rvi.py): per bar
 * (close - open)/(high - low), NaN for a flat bar, averaged over the trailing
 * `period` bars.
 */
module Rvi {
  import opened Wrappers
  import opened Series

  lemma VigorBounds(b: Bar)
    requires WellFormed(b) && b.high - b.low != 0.0
    ensures -1.0 <= (b.close - b.open) / (b.high - b.low) <= 1.0
  {
    DivBounds(b.close - b.open, b.high - b.low, -1.0, 1.0);
  }

  /** `(close - open) / (high - low).replace(0, nan)` for one bar. */
  function Vigor(b: Bar): (r: Option<real>)
    ensures r.Some? <==> b.high - b.low != 0.0
    ensures r.Some? && WellFormed(b) ==> -1.0 <= r.value <= 1.0
  {
    if b.high - b.low == 0.0 then None
    else if WellFormed(b) then
      VigorBounds(b);
      Some((b.close - b.open) / (b.high - b.low))
    else Some((b.close - b.open) / (b.high - b.low))
  }

  function VigorSeries(bars: seq<Bar>): (r: Col)
    ensures |r| == |bars|
    ensures forall i :: 0 <= i < |bars| ==> r[i] == Vigor(bars[i])
  {
    seq(|bars|, i requires 0 <= i < |bars| => Vigor(bars[i]))
  }

  /** `rvi.calculate(df, period)` */
  function RviSeries(bars: seq<Bar>, period: nat): (r: Col)
    ensures |r| == |bars|
  {
    if |bars| < period then NoneSeries(|bars|)
    else RollingMean(VigorSeries(bars), period)
  }

  /** On well-formed bars every defined RVI lies in [-1, 1]. */
  lemma RviRange(bars: seq<Bar>, period: nat)
    requires forall i :: 0 <= i < |bars| ==> WellFormed(bars[i])
    ensures DefinedWithin(RviSeries(bars, period), -1.0, 1.0)
  {
    if |bars| >= period {
      var v := VigorSeries(bars);
      assert DefinedWithin(v, -1.0, 1.0) by {
        forall i | 0 <= i < |v| && v[i].Some? ensures -1.0 <= v[i].value <= 1.0 {
          assert WellFormed(bars[i]);
        }
      }
      RollingMeanBounds(v, period, -1.0, 1.0);
    }
  }

  /** A flat bar anywhere in the window leaves that position undefined. */
  lemma FlatBarUndefined(bars: seq<Bar>, period: nat, i: nat, j: nat)
    requires i < |bars| && |bars| >= period && 1 <= period <= i + 1
    requires i + 1 - period <= j <= i && bars[j].high == bars[j].low
    ensures RviSeries(bars, period)[i].None?
  {
    var v := VigorSeries(bars);
    assert Window(v, period, i)[j - (i + 1 - period)] == v[j];
  }
}
