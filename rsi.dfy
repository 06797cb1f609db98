/**
 * Wilder's Relative Strength Index over a close series (backend/indicators/rsi.py).
 * The first averages are the NaN-skipping means of the gains and losses of
 * changes 1..p; each later pair follows avg_i = (avg_{i-1}·(p-1) + x_i)/p, and
 * once either average of a pair is NaN both stay NaN. A zero average loss gives
 * NaN rather than 100.
 */
module Rsi {
  import opened Wrappers
  import opened Series

  /** `gain[gain < 0] = 0.0`: a NaN change stays NaN. */
  function GainOf(d: Option<real>): (r: Option<real>)
    ensures r.Some? <==> d.Some?
    ensures r.Some? ==> r.value >= 0.0 && (d.value >= 0.0 ==> r.value == d.value)
  {
    match d
    case None => None
    case Some(x) => Some(if x < 0.0 then 0.0 else x)
  }

  /** `loss[loss > 0] = 0.0; loss = loss.abs()` */
  function LossOf(d: Option<real>): (r: Option<real>)
    ensures r.Some? <==> d.Some?
    ensures r.Some? ==> r.value >= 0.0 && (d.value <= 0.0 ==> r.value == -d.value)
  {
    match d
    case None => None
    case Some(x) => Some(if x > 0.0 then 0.0 else -x)
  }

  function Gains(closes: Col): (r: Col)
    ensures |r| == |closes| && NonNegative(r)
  {
    var d := DiffSeries(closes);
    seq(|d|, i requires 0 <= i < |d| => GainOf(d[i]))
  }

  function Losses(closes: Col): (r: Col)
    ensures |r| == |closes| && NonNegative(r)
  {
    var d := DiffSeries(closes);
    seq(|d|, i requires 0 <= i < |d| => LossOf(d[i]))
  }

  /** One smoothing step; NaN arithmetic gives NaN. */
  function WilderStep(avg: real, x: Option<real>, p: nat): Option<real>
    requires p >= 1
  {
    if x.None? then None else Some((avg * (p - 1) as real + x.value) / p as real)
  }

  /** The pair (avg_gain[i], avg_loss[i]) for i >= p. */
  function Averages(gains: Col, losses: Col, p: nat, i: nat): (r: (Option<real>, Option<real>))
    requires p <= i < |gains| && |losses| == |gains| && p + 1 <= |gains|
    ensures p == 0 ==> r == (None, None)
    decreases i
  {
    if i == p then (MeanSkipNa(gains[1..p + 1]), MeanSkipNa(losses[1..p + 1]))
    else
      var prev := Averages(gains, losses, p, i - 1);
      if prev.0.None? || prev.1.None? then (None, None)
      else (WilderStep(prev.0.value, gains[i], p), WilderStep(prev.1.value, losses[i], p))
  }

  /** `100 - 100/(1 + avg_gain/avg_loss)` with a zero loss replaced by NaN. */
  function RsiOf(g: Option<real>, l: Option<real>): (r: Option<real>)
    requires g.Some? ==> g.value >= 0.0
    requires l.Some? ==> l.value >= 0.0
    ensures r.Some? <==> g.Some? && l.Some? && l.value != 0.0
    ensures r.Some? ==> r.value == 100.0 * g.value / (g.value + l.value)
    ensures r.Some? ==> 0.0 <= r.value < 100.0
  {
    if g.Some? && l.Some? && l.value != 0.0 then
      RsiFormula(g.value, l.value);
      Some(100.0 - 100.0 / (1.0 + g.value / l.value))
    else None
  }

  predicate Gated(closes: Col, p: nat) {
    AllNone(closes) || |closes| < p + 1
  }

  lemma WilderStepNonNegative(avg: real, x: Option<real>, p: nat)
    requires p >= 1 && avg >= 0.0 && (x.Some? ==> x.value >= 0.0)
    ensures WilderStep(avg, x, p).Some? ==> WilderStep(avg, x, p).value >= 0.0
  {
    if x.Some? {
      assert avg * (p - 1) as real >= 0.0;
    }
  }

  /** Averages of non-negative gains and losses are non-negative. */
  lemma {:induction false} AveragesNonNegative(gains: Col, losses: Col, p: nat, i: nat)
    requires p <= i < |gains| && |losses| == |gains| && p + 1 <= |gains|
    requires NonNegative(gains) && NonNegative(losses)
    ensures var r := Averages(gains, losses, p, i);
            (r.0.Some? ==> r.0.value >= 0.0) && (r.1.Some? ==> r.1.value >= 0.0)
    decreases i
  {
    if i == p {
      NonNegativeSlice(gains, 1, p + 1);
      NonNegativeSlice(losses, 1, p + 1);
      MeanSkipNaNonNegative(gains[1..p + 1]);
      MeanSkipNaNonNegative(losses[1..p + 1]);
    } else {
      AveragesNonNegative(gains, losses, p, i - 1);
      var prev := Averages(gains, losses, p, i - 1);
      if prev.0.Some? && prev.1.Some? {
        WilderStepNonNegative(prev.0.value, gains[i], p);
        WilderStepNonNegative(prev.1.value, losses[i], p);
      }
    }
  }

  /** The RSI at position i once the gate has passed. */
  function RsiAt(closes: Col, p: nat, i: nat): Option<real>
    requires i < |closes| && !Gated(closes, p)
  {
    if i < p then None
    else
      var gains, losses := Gains(closes), Losses(closes);
      AveragesNonNegative(gains, losses, p, i);
      var avg := Averages(gains, losses, p, i);
      RsiOf(avg.0, avg.1)
  }

  /** `rsi.calculate(df, period)` as a series specification. */
  function RsiSeries(closes: Col, p: nat): (r: Col)
    ensures |r| == |closes|
  {
    if Gated(closes, p) then NoneSeries(|closes|)
    else seq(|closes|, i requires 0 <= i < |closes| => RsiAt(closes, p, i))
  }

  /**
   * The smoothing loop of `rsi.calculate`: seeds position `period` with the
   * NaN-skipping means and fills the two average columns in place.
   */
  method SmoothedAverages(gains: Col, losses: Col, period: nat) returns (g: Col, l: Col)
    requires |losses| == |gains| >= period + 1
    ensures |g| == |l| == |gains|
    ensures forall j :: 0 <= j < period ==> g[j] == None && l[j] == None
    ensures forall j :: period <= j < |gains| ==> (g[j], l[j]) == Averages(gains, losses, period, j)
  {
    var n := |gains|;
    var avgGain := new Option<real>[n](_ => None);
    var avgLoss := new Option<real>[n](_ => None);
    avgGain[period] := MeanSkipNa(gains[1..period + 1]);
    avgLoss[period] := MeanSkipNa(losses[1..period + 1]);
    var i := period + 1;
    while i < n
      invariant period + 1 <= i <= n
      invariant forall j :: 0 <= j < period ==> avgGain[j] == None && avgLoss[j] == None
      invariant forall j :: period <= j < i ==> (avgGain[j], avgLoss[j]) == Averages(gains, losses, period, j)
    {
      AveragesStep(gains, losses, period, i);
      if avgGain[i - 1].None? || avgLoss[i - 1].None? {
        avgGain[i] := None;
        avgLoss[i] := None;
      } else {
        avgGain[i] := WilderStep(avgGain[i - 1].value, gains[i], period);
        avgLoss[i] := WilderStep(avgLoss[i - 1].value, losses[i], period);
      }
      i := i + 1;
    }
    g, l := avgGain[..], avgLoss[..];
  }

  /** `rsi.calculate` */
  method Calculate(closes: Col, period: nat) returns (rsi: Col)
    ensures rsi == RsiSeries(closes, period)
  {
    var n := |closes|;
    if AllNone(closes) || n < period + 1 {
      return NoneSeries(n);
    }
    var gains, losses := Gains(closes), Losses(closes);
    var g, l := SmoothedAverages(gains, losses, period);
    forall j | period <= j < n
      ensures (g[j].Some? ==> g[j].value >= 0.0) && (l[j].Some? ==> l[j].value >= 0.0)
    {
      AveragesNonNegative(gains, losses, period, j);
    }
    rsi := seq(n, j requires 0 <= j < n && (g[j].Some? ==> g[j].value >= 0.0) && (l[j].Some? ==> l[j].value >= 0.0)
                 => RsiOf(g[j], l[j]));
    forall j | 0 <= j < n ensures rsi[j] == RsiAt(closes, period, j) {
      if j >= period {
        assert (g[j], l[j]) == Averages(gains, losses, period, j);
      }
    }
    RsiSeriesFrom(closes, period, rsi);
  }

  lemma AveragesStep(gains: Col, losses: Col, p: nat, i: nat)
    requires p < i < |gains| && |losses| == |gains|
    ensures var prev := Averages(gains, losses, p, i - 1);
            Averages(gains, losses, p, i)
            == if prev.0.None? || prev.1.None? then (None, None)
               else (WilderStep(prev.0.value, gains[i], p), WilderStep(prev.1.value, losses[i], p))
  {
  }

  lemma RsiSeriesFrom(closes: Col, p: nat, r: Col)
    requires !Gated(closes, p) && |r| == |closes|
    requires forall j :: 0 <= j < |closes| ==> r[j] == RsiAt(closes, p, j)
    ensures r == RsiSeries(closes, p)
  {
  }

  // ---- properties ----

  lemma DivByProduct(x: real, d: real, y: real)
    requires d != 0.0 && x * d == y
    ensures x == y / d
  {
  }

  lemma RsiFormula(g: real, l: real)
    requires g >= 0.0 && l > 0.0
    ensures 100.0 - 100.0 / (1.0 + g / l) == 100.0 * g / (g + l)
    ensures 0.0 <= 100.0 * g / (g + l) < 100.0
  {
    var q := g / l;
    assert q * l == g;
    assert (1.0 + q) * l == g + l;
    assert 1.0 + q > 0.0;
    var t := 100.0 / (1.0 + q);
    assert t * (1.0 + q) == 100.0;
    calc {
      (100.0 - t) * (g + l);
      100.0 * (g + l) - t * ((1.0 + q) * l);
      100.0 * (g + l) - (t * (1.0 + q)) * l;
      100.0 * g;
    }
    DivByProduct(100.0 - t, g + l, 100.0 * g);
    assert 100.0 * g < 100.0 * (g + l);
  }

  /** A defined RSI is the share of average gain in average movement, in [0, 100). */
  lemma RsiRange(closes: Col, p: nat, i: nat)
    requires i < |closes|
    ensures var r := RsiSeries(closes, p)[i];
            r.Some? ==> 0.0 <= r.value < 100.0
  {
    if !Gated(closes, p) {
      assert RsiSeries(closes, p)[i] == RsiAt(closes, p, i);
    }
  }

  /** Where the RSI is defined: past the warm-up, both averages defined and a non-zero average loss. */
  lemma RsiDefinedIff(closes: Col, p: nat, i: nat)
    requires i < |closes|
    ensures RsiSeries(closes, p)[i].Some? <==>
              !Gated(closes, p) && i >= p
              && var avg := Averages(Gains(closes), Losses(closes), p, i);
                 avg.0.Some? && avg.1.Some? && avg.1.value != 0.0
  {
  }

  /** Once an average is NaN both stay NaN. */
  lemma {:induction false} AveragesStayUndefined(gains: Col, losses: Col, p: nat, i: nat, j: nat)
    requires p <= i < j < |gains| && |losses| == |gains| && p + 1 <= |gains|
    requires Averages(gains, losses, p, i).0.None? || Averages(gains, losses, p, i).1.None?
    ensures Averages(gains, losses, p, j) == (None, None)
    decreases j - i
  {
    if i + 1 < j {
      AveragesStayUndefined(gains, losses, p, i + 1, j);
    }
  }

  /** With every defined loss zero, the average loss is zero wherever defined. */
  lemma {:induction false} AverageLossZero(gains: Col, losses: Col, p: nat, i: nat)
    requires p <= i < |gains| && |losses| == |gains| && p + 1 <= |gains|
    requires DefinedZero(losses)
    ensures var avg := Averages(gains, losses, p, i); avg.1.Some? ==> avg.1.value == 0.0
    decreases i
  {
    if i == p {
      DefinedZeroSlice(losses, 1, p + 1);
      MeanSkipNaZero(losses[1..p + 1]);
    } else {
      AverageLossZero(gains, losses, p, i - 1);
    }
  }

  /**
   * A series that never falls has no defined RSI: its average loss is zero, which
   * the code maps to NaN (the legacy RSI in app.py returns 100 instead).
   */
  lemma NonDecreasingUndefined(closes: Col, p: nat)
    requires AllSome(closes)
    requires forall i :: 0 < i < |closes| ==> closes[i - 1].value <= closes[i].value
    ensures AllNone(RsiSeries(closes, p))
  {
    if !Gated(closes, p) {
      var gains, losses := Gains(closes), Losses(closes);
      assert DefinedZero(losses) by {
        forall i | 0 <= i < |losses| && losses[i].Some? ensures losses[i].value == 0.0 {
          assert i > 0;
          assert DiffSeries(closes)[i] == Sub(closes[i], closes[i - 1]);
        }
      }
      forall i | p <= i < |closes| ensures RsiSeries(closes, p)[i].None? {
        AverageLossZero(gains, losses, p, i);
      }
    }
  }
}
