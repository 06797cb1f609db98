/**
 * Stochastic RSI %K (backend/indicators/stochastic_rsi.py): where the RSI sits
 * inside its trailing `stoch_period` range, scaled to 0..100, then averaged over
 * `k_smooth` bars. A flat range gives NaN, not 50.
 */
module StochasticRsi {
  import opened Wrappers
  import opened Series
  import Rsi

  /** `(rsi - min) / (max - min).replace(0, nan) * 100` at one position. */
  function RawK(x: Option<real>, lo: Option<real>, hi: Option<real>): (r: Option<real>)
    ensures r.Some? <==> x.Some? && lo.Some? && hi.Some? && hi.value - lo.value != 0.0
    ensures r.Some? && lo.value <= x.value <= hi.value ==> 0.0 <= r.value <= 100.0
  {
    if x.Some? && lo.Some? && hi.Some? && hi.value - lo.value != 0.0 then
      RawKBounds(x.value, lo.value, hi.value);
      Some((x.value - lo.value) / (hi.value - lo.value) * 100.0)
    else None
  }

  /** The unsmoothed %K column. */
  function RawKSeries(rsi: Col, stochPeriod: nat): (r: Col)
    ensures |r| == |rsi|
  {
    var mins, maxs := RollingMin(rsi, stochPeriod), RollingMax(rsi, stochPeriod);
    seq(|rsi|, i requires 0 <= i < |rsi| => RawK(rsi[i], mins[i], maxs[i]))
  }

  /** The gate: no defined RSI, or fewer defined RSI values than the window. */
  predicate Gated(rsi: Col, stochPeriod: nat) {
    AllNone(rsi) || CountSome(rsi) < stochPeriod
  }

  /** `stochastic_rsi.calculate(df, rsi_period, stoch_period, k_smooth)` */
  function StochRsiSeries(closes: Col, rsiPeriod: nat, stochPeriod: nat, kSmooth: nat): (r: Col)
    requires kSmooth >= 1
    ensures |r| == |closes|
  {
    var rsi := Rsi.RsiSeries(closes, rsiPeriod);
    if Gated(rsi, stochPeriod) then NoneSeries(|closes|)
    else RollingMean(RawKSeries(rsi, stochPeriod), kSmooth)
  }

  lemma RawKBounds(x: real, lo: real, hi: real)
    requires hi - lo != 0.0
    ensures lo <= x <= hi ==> 0.0 <= (x - lo) / (hi - lo) * 100.0 <= 100.0
  {
    if lo <= x <= hi {
      DivBounds(x - lo, hi - lo, 0.0, 1.0);
    }
  }

  /** Every raw %K lies in [0, 100]: the current RSI is inside its own window. */
  lemma RawKRange(rsi: Col, stochPeriod: nat)
    ensures DefinedWithin(RawKSeries(rsi, stochPeriod), 0.0, 100.0)
  {
    var raw := RawKSeries(rsi, stochPeriod);
    var mins, maxs := RollingMin(rsi, stochPeriod), RollingMax(rsi, stochPeriod);
    forall i | 0 <= i < |raw| && raw[i].Some? ensures 0.0 <= raw[i].value <= 100.0 {
      assert raw[i] == RawK(rsi[i], mins[i], maxs[i]);
      var win := Window(rsi, stochPeriod, i);
      assert mins[i] == Some(MinOf(win)) && maxs[i] == Some(MaxOf(win));
      assert win[stochPeriod - 1] == rsi[i];
    }
  }

  /** A defined smoothed %K lies in [0, 100]. */
  lemma StochRsiRange(closes: Col, rsiPeriod: nat, stochPeriod: nat, kSmooth: nat)
    requires kSmooth >= 1
    ensures DefinedWithin(StochRsiSeries(closes, rsiPeriod, stochPeriod, kSmooth), 0.0, 100.0)
  {
    var rsi := Rsi.RsiSeries(closes, rsiPeriod);
    if !Gated(rsi, stochPeriod) {
      RawKRange(rsi, stochPeriod);
      RollingMeanBounds(RawKSeries(rsi, stochPeriod), kSmooth, 0.0, 100.0);
    }
  }

  /** A window in which the RSI did not move has no %K. */
  lemma FlatWindowUndefined(rsi: Col, stochPeriod: nat, i: nat)
    requires i < |rsi| && FullWindow(rsi, stochPeriod, i)
    requires forall j :: i + 1 - stochPeriod <= j <= i ==> rsi[j] == rsi[i]
    ensures RawKSeries(rsi, stochPeriod)[i].None?
  {
    var win := Window(rsi, stochPeriod, i);
    var lo, hi := MinOf(win), MaxOf(win);
    assert lo == rsi[i].value && hi == rsi[i].value;
  }

  /** The smoothed value is defined exactly when the last k_smooth raw values are. */
  lemma SmoothedDefinedIff(closes: Col, rsiPeriod: nat, stochPeriod: nat, kSmooth: nat, i: nat)
    requires kSmooth >= 1 && i < |closes|
    requires !Gated(Rsi.RsiSeries(closes, rsiPeriod), stochPeriod)
    ensures StochRsiSeries(closes, rsiPeriod, stochPeriod, kSmooth)[i].Some?
            <==> FullWindow(RawKSeries(Rsi.RsiSeries(closes, rsiPeriod), stochPeriod), kSmooth, i)
  {
  }

  /** Too few defined RSI values for one window gives an all-NaN result. */
  lemma TooFewRsiValues(closes: Col, rsiPeriod: nat, stochPeriod: nat, kSmooth: nat)
    requires kSmooth >= 1
    requires CountSome(Rsi.RsiSeries(closes, rsiPeriod)) < stochPeriod
    ensures AllNone(StochRsiSeries(closes, rsiPeriod, stochPeriod, kSmooth))
  {
  }
}
