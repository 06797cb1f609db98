/**
 * Kaufman's adaptive moving average and the RSI of it
 * (backend/indicators/adaptive_rsi.py). The efficiency ratio of the last n
 * changes picks a smoothing constant between the fast and the slow EMA
 * constants; KAMA moves that fraction of the way toward each new close.
 */
module AdaptiveRsi {
  import opened Wrappers
  import opened Series
  import Rsi

  /** `series.diff(n).abs()` at position i. */
  function ChangeOver(xs: Col, n: nat, i: nat): (r: Option<real>)
    requires i < |xs|
    ensures r.Some? <==> i >= n && xs[i].Some? && xs[i - n].Some?
  {
    if i >= n && xs[i].Some? && xs[i - n].Some? then Some(Abs(xs[i].value - xs[i - n].value)) else None
  }

  /** The size of the step into bar i, when both bars are defined. */
  function StepSize(xs: Col, i: nat): Option<real>
    requires i < |xs|
  {
    if i > 0 && xs[i].Some? && xs[i - 1].Some? then Some(Abs(xs[i].value - xs[i - 1].value)) else None
  }

  /** `series.diff().abs()` */
  function AbsDiffs(xs: Col): (r: Col)
    ensures |r| == |xs|
    ensures forall i :: 0 <= i < |xs| ==> r[i] == StepSize(xs, i)
  {
    seq(|xs|, i requires 0 <= i < |xs| => StepSize(xs, i))
  }

  /** The net move from bar lo to bar i is at most the sum of the step sizes between them. */
  lemma {:induction false} Telescope(xs: Col, lo: nat, i: nat)
    requires lo < i < |xs|
    requires forall j :: lo <= j <= i ==> xs[j].Some?
    ensures Abs(xs[i].value - xs[lo].value) <= SumSome(AbsDiffs(xs)[lo + 1..i + 1])
    decreases i
  {
    var d := AbsDiffs(xs);
    var a, b, c := xs[i].value, xs[i - 1].value, xs[lo].value;
    SumSomeSliceLast(d, lo + 1, i + 1);
    assert d[i] == Some(Abs(a - b));
    if lo < i - 1 {
      Telescope(xs, lo, i - 1);
    } else {
      assert b == c;
    }
  }

  /** The volatility window holds only defined steps, so every close it spans is defined. */
  lemma FullVolatilityWindow(xs: Col, n: nat, i: nat)
    requires i < |xs| && FullWindow(AbsDiffs(xs), n, i)
    ensures n <= i && forall j :: i - n <= j <= i ==> xs[j].Some?
  {
    var d := AbsDiffs(xs);
    var win := Window(d, n, i);
    assert win[0] == d[i + 1 - n];
    forall j | i - n <= j <= i ensures xs[j].Some? {
      if j < i {
        assert win[j + 1 - (i + 1 - n)] == d[j + 1];
      } else {
        assert win[n - 1] == d[i];
      }
    }
  }

  lemma ErBounds(xs: Col, n: nat, i: nat, change: real, vol: real)
    requires i < |xs| && ChangeOver(xs, n, i) == Some(change)
    requires RollingSum(AbsDiffs(xs), n)[i] == Some(vol) && vol != 0.0
    ensures 0.0 <= change / vol <= 1.0
  {
    var d := AbsDiffs(xs);
    FullVolatilityWindow(xs, n, i);
    var lo := i - n;
    Telescope(xs, lo, i);
    assert Window(d, n, i) == d[lo + 1..i + 1];
    assert vol == SumSome(d[lo + 1..i + 1]);
    assert change == Abs(xs[i].value - xs[i - n].value);
    RatioUnit(change, vol);
  }

  lemma RatioUnit(c: real, v: real)
    requires 0.0 <= c <= v && v != 0.0
    ensures 0.0 <= c / v <= 1.0
  {
    assert 0.0 * v == 0.0 && 1.0 * v == v;
    DivBounds(c, v, 0.0, 1.0);
  }

  /** `(change / volatility.replace(0, nan)).fillna(0)`: the efficiency ratio. */
  function EfficiencyRatio(xs: Col, n: nat, i: nat): (r: real)
    requires i < |xs|
    ensures 0.0 <= r <= 1.0
  {
    var change, vol := ChangeOver(xs, n, i), RollingSum(AbsDiffs(xs), n)[i];
    if change.Some? && vol.Some? && vol.value != 0.0 then
      ErBounds(xs, n, i, change.value, vol.value);
      change.value / vol.value
    else 0.0
  }

  function EmaConstant(p: nat): (r: real)
    ensures 0.0 < r <= 2.0
    ensures p >= 1 ==> r <= 1.0
  {
    DivBounds(2.0, p as real + 1.0, 0.0, 2.0);
    if p >= 1 then DivBounds(2.0, p as real + 1.0, 0.0, 1.0); 2.0 / (p as real + 1.0)
    else 2.0 / (p as real + 1.0)
  }

  lemma MulMono(a: real, b: real, c: real)
    requires a <= b && c >= 0.0
    ensures a * c <= b * c
  {
    assert b * c - a * c == (b - a) * c;
  }

  /** p is the fraction a in [0, 1] of c >= 0. */
  lemma UnitScale(a: real, c: real, p: real)
    requires 0.0 <= a <= 1.0 && c >= 0.0 && p == a * c
    ensures 0.0 <= p <= c
  {
    MulMono(0.0, a, c);
    MulMono(a, 1.0, c);
  }

  /** The constant's root lies between the slow and the fast EMA constants. */
  lemma Between(er: real, f: real, s: real, e: real)
    requires 0.0 <= er <= 1.0 && f > 0.0 && s > 0.0 && e == er * (f - s) + s
    ensures 0.0 < e <= Max(f, s)
  {
    if f >= s {
      UnitScale(er, f - s, e - s);
    } else {
      UnitScale(er, s - f, s - e);
    }
  }

  function Square(e: real): real {
    e * e
  }

  lemma SquareNonNegative(e: real)
    ensures Square(e) >= 0.0
  {
    if e >= 0.0 {
      MulMono(0.0, e, e);
      assert 0.0 * e == 0.0;
    } else {
      MulMono(e, 0.0, -e);
      assert 0.0 * -e == 0.0;
      assert e * -e == -(e * e);
    }
  }

  lemma SquareUnit(e: real)
    requires 0.0 <= e <= 1.0
    ensures 0.0 <= Square(e) <= 1.0
  {
    MulMono(0.0, e, e);
    assert 0.0 * e == 0.0;
    MulMono(e, 1.0, e);
    assert e * e <= 1.0 * e;
    assert 1.0 * e == e;
    assert e * e <= e;
  }

  /** A longer EMA period gives a smaller constant. */
  lemma EmaConstantAntitone(p: nat, q: nat)
    requires p <= q
    ensures EmaConstant(q) <= EmaConstant(p)
  {
    var a, b := EmaConstant(p), EmaConstant(q);
    var dp, dq := p as real + 1.0, q as real + 1.0;
    assert a * dp == 2.0 && b * dq == 2.0;
    MulMono(dp, dq, a);
    assert (a - b) * dq == a * dq - b * dq;
    CancelPositive(a - b, dq);
  }

  /** A product with a positive factor keeps the sign of the other factor. */
  lemma CancelPositive(x: real, c: real)
    requires c > 0.0 && x * c >= 0.0
    ensures x >= 0.0
  {
  }

  lemma SquareMonotone(a: real, b: real)
    requires 0.0 <= a <= b
    ensures Square(a) <= Square(b)
  {
    MulMono(a, b, a);
    MulMono(a, b, b);
    assert b * a == a * b;
  }

  /** With the fast period no longer than the slow one, the root lies between the two EMA constants. */
  lemma RootBetween(er: real, fast: nat, slow: nat)
    requires 0.0 <= er <= 1.0
    ensures var f, s := EmaConstant(fast), EmaConstant(slow);
            1 <= fast <= slow ==> Square(s) <= Square(er * (f - s) + s) <= Square(f)
  {
    var f, s := EmaConstant(fast), EmaConstant(slow);
    var e := er * (f - s) + s;
    if 1 <= fast <= slow {
      EmaConstantAntitone(fast, slow);
      UnitScale(er, f - s, e - s);
      SquareMonotone(s, e);
      SquareMonotone(e, f);
    }
  }

  /** `(er * (sc_fast - sc_slow) + sc_slow) ** 2` */
  function SmoothingConstant(er: real, fast: nat, slow: nat): (r: real)
    requires 0.0 <= er <= 1.0
    ensures r >= 0.0
    ensures fast >= 1 && slow >= 1 ==> r <= 1.0
    ensures 1 <= fast <= slow ==> Square(EmaConstant(slow)) <= r <= Square(EmaConstant(fast))
  {
    var f, s := EmaConstant(fast), EmaConstant(slow);
    var e := er * (f - s) + s;
    Between(er, f, s, e);
    if fast >= 1 && slow >= 1 then
      SquareUnit(e);
      RootBetween(er, fast, slow);
      Square(e)
    else
      SquareNonNegative(e);
      Square(e)
  }

  function SmoothingConstants(xs: Col, n: nat, fast: nat, slow: nat): (r: seq<real>)
    ensures |r| == |xs|
    ensures forall i :: 0 <= i < |xs| ==> r[i] >= 0.0
    ensures fast >= 1 && slow >= 1 ==> forall i :: 0 <= i < |xs| ==> r[i] <= 1.0
  {
    seq(|xs|, i requires 0 <= i < |xs| => SmoothingConstant(EfficiencyRatio(xs, n, i), fast, slow))
  }

  /** `kama[i-1] + sc[i] * (series[i] - kama[i-1])` */
  function Step(prev: real, c: real, x: real): real {
    prev + c * (x - prev)
  }

  /**
   * KAMA at position i: seeded with the first close (the first defined smoothing
   * constant is always at position 0), then moved toward each defined close and
   * carried forward over an undefined one.
   */
  function KamaAt(xs: Col, sc: seq<real>, i: nat): Option<real>
    requires i < |xs| == |sc|
  {
    if i == 0 then xs[0] else KamaNext(KamaAt(xs, sc, i - 1), sc[i], xs[i])
  }

  /** One update: move toward a defined close, carry forward over an undefined one. */
  function KamaNext(prev: Option<real>, c: real, x: Option<real>): Option<real> {
    if prev.Some? && x.Some? then Some(Step(prev.value, c, x.value)) else prev
  }

  predicate KamaGated(xs: Col, n: nat) {
    AllNone(xs) || CountSome(xs) < n + 1
  }

  /** `calculate_kama(series, n_period, fast_ema_period, slow_ema_period)` as a specification. */
  function KamaSeries(xs: Col, n: nat, fast: nat, slow: nat): (r: Col)
    ensures |r| == |xs|
  {
    if KamaGated(xs, n) then NoneSeries(|xs|)
    else
      var sc := SmoothingConstants(xs, n, fast, slow);
      seq(|xs|, i requires 0 <= i < |xs| => KamaAt(xs, sc, i))
  }

  /** The loop of `calculate_kama`: seed with the first close, then update in place. */
  method KamaLoop(xs: Col, sc: seq<real>) returns (kama: Col)
    requires |xs| == |sc| >= 1
    ensures |kama| == |xs|
    ensures forall j :: 0 <= j < |xs| ==> kama[j] == KamaAt(xs, sc, j)
  {
    var len := |xs|;
    var k := new Option<real>[len](_ => None);
    k[0] := xs[0];
    var i := 1;
    while i < len
      invariant 1 <= i <= len
      invariant forall j :: 0 <= j < i ==> k[j] == KamaAt(xs, sc, j)
    {
      k[i] := KamaNext(k[i - 1], sc[i], xs[i]);
      i := i + 1;
    }
    kama := k[..];
  }

  /** `calculate_kama` */
  method CalculateKama(xs: Col, n: nat, fast: nat, slow: nat) returns (kama: Col)
    ensures kama == KamaSeries(xs, n, fast, slow)
  {
    if AllNone(xs) || CountSome(xs) < n + 1 {
      return NoneSeries(|xs|);
    }
    var sc := SmoothingConstants(xs, n, fast, slow);
    kama := KamaLoop(xs, sc);
    KamaSeriesFrom(xs, n, fast, slow, kama);
  }

  lemma KamaSeriesFrom(xs: Col, n: nat, fast: nat, slow: nat, ks: Col)
    requires !KamaGated(xs, n) && |ks| == |xs|
    requires forall j :: 0 <= j < |xs| ==> ks[j] == KamaAt(xs, SmoothingConstants(xs, n, fast, slow), j)
    ensures ks == KamaSeries(xs, n, fast, slow)
  {
  }

  /** The adaptive RSI gate: closes defined at fewer than (kama_n + 1) + (period + 1) bars. */
  predicate Gated(closes: Col, period: nat, kamaN: nat) {
    AllNone(closes) || CountSome(closes) < (kamaN + 1) + (period + 1)
  }

  /** `adaptive_rsi.calculate(df, period, kama_n, kama_fast_ema, kama_slow_ema)` as a specification. */
  function AdaptiveRsiSeries(closes: Col, period: nat, kamaN: nat, fast: nat, slow: nat): (r: Col)
    ensures |r| == |closes|
  {
    if Gated(closes, period, kamaN) then NoneSeries(|closes|)
    else
      var kama := KamaSeries(closes, kamaN, fast, slow);
      if AllNone(kama) then Rsi.RsiSeries(closes, period)
      else
        var smoothed := Rsi.RsiSeries(kama, period);
        if AllNone(smoothed) then Rsi.RsiSeries(closes, period) else smoothed
  }

  /** `adaptive_rsi.calculate` */
  method Calculate(closes: Col, period: nat, kamaN: nat, fast: nat, slow: nat) returns (r: Col)
    ensures r == AdaptiveRsiSeries(closes, period, kamaN, fast, slow)
  {
    if AllNone(closes) || CountSome(closes) < (kamaN + 1) + (period + 1) {
      return NoneSeries(|closes|);
    }
    var kama := CalculateKama(closes, kamaN, fast, slow);
    if AllNone(kama) {
      r := Rsi.Calculate(closes, period);
      return;
    }
    r := Rsi.Calculate(kama, period);
    if AllNone(r) {
      r := Rsi.Calculate(closes, period);
    }
  }

  // ---- properties ----

  /** One KAMA step with a constant in [0, 1] lands between the old value and the close. */
  lemma StepBetween(prev: real, c: real, x: real)
    requires 0.0 <= c <= 1.0
    ensures Min(prev, x) <= Step(prev, c, x) <= Max(prev, x)
  {
    var next := Step(prev, c, x);
    if x >= prev {
      UnitScale(c, x - prev, next - prev);
    } else {
      UnitScale(c, prev - x, prev - next);
    }
  }

  /** KAMA is defined everywhere or nowhere: exactly when the first close is. */
  lemma {:induction false} KamaDefinedIff(xs: Col, sc: seq<real>, i: nat)
    requires i < |xs| == |sc|
    ensures KamaAt(xs, sc, i).Some? <==> xs[0].Some?
  {
    if i > 0 {
      KamaDefinedIff(xs, sc, i - 1);
    }
  }

  /** With constants in [0, 1], KAMA never leaves the range of the closes. */
  lemma {:induction false} KamaWithinRange(xs: Col, sc: seq<real>, i: nat, lo: real, hi: real)
    requires i < |xs| == |sc| && DefinedWithin(xs, lo, hi)
    requires forall j :: 0 <= j < |sc| ==> 0.0 <= sc[j] <= 1.0
    ensures KamaAt(xs, sc, i).Some? ==> lo <= KamaAt(xs, sc, i).value <= hi
  {
    if i > 0 {
      KamaWithinRange(xs, sc, i - 1, lo, hi);
      var prev := KamaAt(xs, sc, i - 1);
      if prev.Some? && xs[i].Some? {
        StepBetween(prev.value, sc[i], xs[i].value);
      }
    }
  }

  /** With fast and slow periods of at least 1, the KAMA series stays within the closes' range. */
  lemma KamaSeriesWithinRange(xs: Col, n: nat, fast: nat, slow: nat, lo: real, hi: real)
    requires fast >= 1 && slow >= 1 && DefinedWithin(xs, lo, hi)
    ensures DefinedWithin(KamaSeries(xs, n, fast, slow), lo, hi)
  {
    if !KamaGated(xs, n) {
      var sc := SmoothingConstants(xs, n, fast, slow);
      var r := KamaSeries(xs, n, fast, slow);
      forall i | 0 <= i < |r| && r[i].Some? ensures lo <= r[i].value <= hi {
        KamaWithinRange(xs, sc, i, lo, hi);
      }
    }
  }

  /** Every defined adaptive RSI lies in [0, 100). */
  lemma AdaptiveRsiRange(closes: Col, period: nat, kamaN: nat, fast: nat, slow: nat, i: nat)
    requires i < |closes|
    ensures var r := AdaptiveRsiSeries(closes, period, kamaN, fast, slow)[i];
            r.Some? ==> 0.0 <= r.value < 100.0
  {
    if !Gated(closes, period, kamaN) {
      var kama := KamaSeries(closes, kamaN, fast, slow);
      Rsi.RsiRange(closes, period, i);
      Rsi.RsiRange(kama, period, i);
    }
  }

  /** A NaN first close leaves KAMA undefined, so the result is the plain RSI of the closes. */
  lemma UndefinedFirstCloseFallsBack(closes: Col, period: nat, kamaN: nat, fast: nat, slow: nat)
    requires |closes| > 0 && closes[0].None? && !Gated(closes, period, kamaN)
    ensures AdaptiveRsiSeries(closes, period, kamaN, fast, slow) == Rsi.RsiSeries(closes, period)
  {
    var sc := SmoothingConstants(closes, kamaN, fast, slow);
    var kama := KamaSeries(closes, kamaN, fast, slow);
    forall i | 0 <= i < |kama| ensures kama[i].None? {
      KamaDefinedIff(closes, sc, i);
    }
  }
}
