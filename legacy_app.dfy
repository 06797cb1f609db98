/**
 * The first-generation indicators in app.py: `calculate_rsi`, a Wilder RSI over
 * a plain price list that returns only its last value, and `calculate_stoch_rsi`,
 * a stochastic oscillator over the RSIs of sliding windows. Unlike the backend
 * they give 100 for a series without losses and fall back to 50 when the
 * stochastic window is short or flat.
 */
module LegacyApp {
  import opened Wrappers
  import opened Series
  import Rsi

  /** `np.diff(prices)` */
  function Deltas(prices: seq<real>): (d: seq<real>)
    ensures |prices| == 0 ==> d == []
    ensures |prices| > 0 ==> |d| == |prices| - 1
    ensures forall j :: 0 <= j < |d| ==> d[j] == prices[j + 1] - prices[j]
  {
    if |prices| == 0 then []
    else seq(|prices| - 1, j requires 0 <= j < |prices| - 1 => prices[j + 1] - prices[j])
  }

  function Gain(d: real): real { if d > 0.0 then d else 0.0 }
  function Loss(d: real): real { if d > 0.0 then 0.0 else -d }

  /** `seed[seed >= 0].sum()` */
  function SumGains(ds: seq<real>): (r: real)
    ensures r >= 0.0
  {
    if |ds| == 0 then 0.0 else SumGains(ds[..|ds| - 1]) + Gain(ds[|ds| - 1])
  }

  /** `-seed[seed < 0].sum()` */
  function SumLosses(ds: seq<real>): (r: real)
    ensures r >= 0.0
  {
    if |ds| == 0 then 0.0 else SumLosses(ds[..|ds| - 1]) + Loss(ds[|ds| - 1])
  }

  /** The running averages `up` and `down`. */
  datatype Avgs = Avgs(up: real, down: real)

  predicate NonNegativeAvgs(a: Avgs) { a.up >= 0.0 && a.down >= 0.0 }

  lemma NonNegativeQuotient(s: real, n: real)
    requires s >= 0.0 && n > 0.0
    ensures s / n >= 0.0
  {
  }

  /** The seed: the first `period + 1` deltas (or all there are), each side divided by `period`. */
  function Seed(d: seq<real>, period: nat): (a: Avgs)
    requires period >= 1
    ensures NonNegativeAvgs(a)
  {
    var k := if period + 1 <= |d| then period + 1 else |d|;
    var gains, losses := SumGains(d[..k]), SumLosses(d[..k]);
    NonNegativeQuotient(gains, period as real);
    NonNegativeQuotient(losses, period as real);
    Avgs(gains / period as real, losses / period as real)
  }

  /** `(avg * (period - 1) + x) / period`, the Wilder step the backend RSI uses as well. */
  function Wilder(avg: real, x: real, period: nat): (r: real)
    requires period >= 1
    ensures avg >= 0.0 && x >= 0.0 ==> r >= 0.0
  {
    assert avg >= 0.0 ==> avg * (period - 1) as real >= 0.0;
    (avg * (period - 1) as real + x) / period as real
  }

  /** `up = (up * (period - 1) + upval) / period`, and the same for `down`. */
  function Smooth(a: Avgs, delta: real, period: nat): (r: Avgs)
    requires period >= 1 && NonNegativeAvgs(a)
    ensures NonNegativeAvgs(r)
  {
    Avgs(Wilder(a.up, Gain(delta), period), Wilder(a.down, Loss(delta), period))
  }

  /** The averages after the loop pass for price index i, which reads `deltas[i - 1]`. */
  function AvgsAt(d: seq<real>, period: nat, i: nat): (a: Avgs)
    requires 1 <= period <= i <= |d|
    ensures NonNegativeAvgs(a)
    decreases i
  {
    var prev := if i == period then Seed(d, period) else AvgsAt(d, period, i - 1);
    Smooth(prev, d[i - 1], period)
  }

  /** `100 - 100 / (1 + rs)` with `rs = inf` when `down == 0`. */
  function RsiValue(a: Avgs): (r: real)
    requires NonNegativeAvgs(a)
    ensures 0.0 <= r <= 100.0
    ensures a.down == 0.0 <==> r == 100.0
  {
    if a.down != 0.0 then
      Rsi.RsiFormula(a.up, a.down);
      100.0 - 100.0 / (1.0 + a.up / a.down)
    else 100.0
  }

  /** `calculate_rsi(prices, period)`: `rsi[-1]`, which raises on an empty list. */
  function LegacyRsi(prices: seq<real>, period: nat): (r: Result<real, string>)
    requires period >= 1
    ensures r.Failure? <==> |prices| == 0
    ensures r.Success? ==> 0.0 <= r.value <= 100.0
  {
    var d := Deltas(prices);
    if |prices| == 0 then Failure("IndexError")
    else if |prices| <= period then Success(RsiValue(Seed(d, period)))
    else Success(RsiValue(AvgsAt(d, period, |prices| - 1)))
  }

  /** `calculate_rsi`: the seed, then the smoothing loop from index `period`. */
  method CalculateRsi(prices: seq<real>, period: nat) returns (r: Result<real, string>)
    requires period >= 1
    ensures r == LegacyRsi(prices, period)
  {
    var n := |prices|;
    if n == 0 {
      return Failure("IndexError");
    }
    var deltas := Deltas(prices);
    var a := Seed(deltas, period);
    var up, down := a.up, a.down;
    var last := RsiValue(a);
    var i := period;
    while i < n
      invariant period <= i && |deltas| == n - 1
      invariant i > period ==> i <= n
      invariant i > period ==> Avgs(up, down) == AvgsAt(deltas, period, i - 1)
      invariant i == period ==> Avgs(up, down) == Seed(deltas, period)
      invariant last == RsiValue(Avgs(up, down))
    {
      var delta := deltas[i - 1];
      var upval, downval := 0.0, 0.0;
      if delta > 0.0 {
        upval := delta;
      } else {
        downval := -delta;
      }
      assert upval == Gain(delta) && downval == Loss(delta);
      ghost var prev := Avgs(up, down);
      up := Wilder(up, upval, period);
      down := Wilder(down, downval, period);
      assert Avgs(up, down) == Smooth(prev, delta, period);
      assert Avgs(up, down) == AvgsAt(deltas, period, i);
      last := RsiValue(Avgs(up, down));
      i := i + 1;
    }
    r := Success(last);
  }

  // ---- properties ----

  predicate NonDecreasing(prices: seq<real>) {
    forall j :: 0 < j < |prices| ==> prices[j - 1] <= prices[j]
  }

  lemma {:induction false} NoLossesSum(ds: seq<real>)
    requires forall j :: 0 <= j < |ds| ==> ds[j] >= 0.0
    ensures SumLosses(ds) == 0.0
  {
    if |ds| > 0 {
      NoLossesSum(ds[..|ds| - 1]);
    }
  }

  predicate NoFalls(d: seq<real>) {
    forall j :: 0 <= j < |d| ==> d[j] >= 0.0
  }

  lemma NonDecreasingNoFalls(prices: seq<real>)
    requires NonDecreasing(prices)
    ensures NoFalls(Deltas(prices))
  {
    var d := Deltas(prices);
    forall j | 0 <= j < |d| ensures d[j] >= 0.0 {
      assert prices[j] <= prices[j + 1];
    }
  }

  lemma SeedNoLoss(d: seq<real>, period: nat)
    requires period >= 1 && NoFalls(d)
    ensures Seed(d, period).down == 0.0
  {
    var k := if period + 1 <= |d| then period + 1 else |d|;
    NoLossesSum(d[..k]);
  }

  lemma {:induction false} AvgsNoLoss(d: seq<real>, period: nat, i: nat)
    requires 1 <= period <= i <= |d| && NoFalls(d)
    ensures AvgsAt(d, period, i).down == 0.0
    decreases i
  {
    var prev := if i == period then Seed(d, period) else AvgsAt(d, period, i - 1);
    if i == period {
      SeedNoLoss(d, period);
    } else {
      AvgsNoLoss(d, period, i - 1);
    }
    assert prev.down == 0.0;
    assert Loss(d[i - 1]) == 0.0;
  }

  /** A price list that never falls scores 100: `down` starts and stays at zero, so `rs` is infinite. */
  lemma NonDecreasingScoresHundred(prices: seq<real>, period: nat)
    requires period >= 1 && |prices| > 0 && NonDecreasing(prices)
    ensures LegacyRsi(prices, period) == Success(100.0)
  {
    NonDecreasingNoFalls(prices);
    if |prices| <= period {
      SeedNoLoss(Deltas(prices), period);
    } else {
      AvgsNoLoss(Deltas(prices), period, |prices| - 1);
    }
  }

  /**
   * On the same never-falling closes the backend RSI has no value at all,
   * while the legacy one reports 100.
   */
  lemma LegacyAndBackendDiverge(prices: seq<real>, period: nat)
    requires period >= 1 && |prices| > 0 && NonDecreasing(prices)
    ensures var closes := seq(|prices|, i requires 0 <= i < |prices| => Some(prices[i]));
            LegacyRsi(prices, period) == Success(100.0) && AllNone(Rsi.RsiSeries(closes, period))
  {
    NonDecreasingScoresHundred(prices, period);
    var closes := seq(|prices|, i requires 0 <= i < |prices| => Some(prices[i]));
    Rsi.NonDecreasingUndefined(closes, period);
  }

  // ---- calculate_stoch_rsi ----

  /** The RSIs of the windows `prices[i:i+period]`, one per start index. */
  function WindowRsis(prices: seq<real>, period: nat): (rs: seq<real>)
    requires period >= 1
    ensures |rs| == if |prices| >= period then |prices| - period + 1 else 0
    ensures forall i :: 0 <= i < |rs| ==> rs[i] == WindowRsi(prices, period, i)
  {
    var count := if |prices| >= period then |prices| - period + 1 else 0;
    seq(count, i requires 0 <= i < count => WindowRsi(prices, period, i))
  }

  /** The RSI of the window `prices[i:i+period]`. */
  function WindowRsi(prices: seq<real>, period: nat, i: nat): (r: real)
    requires period >= 1 && i + period <= |prices|
    ensures 0.0 <= r <= 100.0
  {
    LegacyRsi(prices[i..i + period], period).value
  }

  /** Where `x` sits between `lo` and `hi`, in percent. */
  function Position(x: real, lo: real, hi: real): (r: real)
    requires lo <= x <= hi && lo < hi
    ensures 0.0 <= r <= 100.0
    ensures x == hi ==> r == 100.0
    ensures x == lo ==> r == 0.0
  {
    Series.DivBounds(x - lo, hi - lo, 0.0, 1.0);
    if x == hi then
      Unit(hi - lo);
      (x - lo) / (hi - lo) * 100.0
    else
      (x - lo) / (hi - lo) * 100.0
  }

  lemma Unit(d: real)
    requires d > 0.0
    ensures d / d == 1.0
  {
  }

  function MinReal(xs: seq<real>): (r: real)
    requires |xs| > 0
    ensures r in xs && forall x :: x in xs ==> r <= x
  {
    if |xs| == 1 then xs[0]
    else
      var m := MinReal(xs[1..]);
      assert forall x :: x in xs ==> x == xs[0] || x in xs[1..];
      if xs[0] <= m then xs[0] else m
  }

  function MaxReal(xs: seq<real>): (r: real)
    requires |xs| > 0
    ensures r in xs && forall x :: x in xs ==> x <= r
  {
    if |xs| == 1 then xs[0]
    else
      var m := MaxReal(xs[1..]);
      assert forall x :: x in xs ==> x == xs[0] || x in xs[1..];
      if xs[0] >= m then xs[0] else m
  }

  /** `calculate_stoch_rsi(prices, period)`: the last window RSI placed between the low and high of the last `period`. */
  function LegacyStochRsi(prices: seq<real>, period: nat): (r: real)
    requires period >= 1
    ensures 0.0 <= r <= 100.0
  {
    Oscillator(WindowRsis(prices, period), period)
  }

  /** The oscillator over the collected RSIs: 50 when there are fewer than `period` or they are flat. */
  function Oscillator(rs: seq<real>, period: nat): (r: real)
    requires period >= 1
    ensures 0.0 <= r <= 100.0
  {
    if |rs| < period then 50.0
    else
      var tail := rs[|rs| - period..];
      var lo, hi := MinReal(tail), MaxReal(tail);
      if hi == lo then 50.0
      else
        var last := rs[|rs| - 1];
        assert last in tail;
        Position(last, lo, hi)
  }

  /** The loop of `calculate_stoch_rsi` appending `calculate_rsi` of each window. */
  method CollectRsis(prices: seq<real>, period: nat) returns (rsiValues: seq<real>)
    requires period >= 1
    ensures rsiValues == WindowRsis(prices, period)
  {
    rsiValues := [];
    var count := if |prices| >= period then |prices| - period + 1 else 0;
    for i := 0 to count
      invariant rsiValues == WindowRsis(prices, period)[..i]
    {
      var v := CalculateRsi(prices[i..i + period], period);
      assert v.value == WindowRsis(prices, period)[i];
      rsiValues := rsiValues + [v.value];
    }
  }

  /** `calculate_stoch_rsi`: the loop collecting one RSI per window, then the oscillator. */
  method CalculateStochRsi(prices: seq<real>, period: nat) returns (r: real)
    requires period >= 1
    ensures r == LegacyStochRsi(prices, period)
  {
    var rsiValues := CollectRsis(prices, period);
    r := Oscillate(rsiValues, period);
  }

  /** The tail of `calculate_stoch_rsi`: min and max of the last `period` RSIs, then the position of the last one. */
  method Oscillate(rsiValues: seq<real>, period: nat) returns (r: real)
    requires period >= 1
    ensures r == Oscillator(rsiValues, period)
  {
    if |rsiValues| < period {
      return 50.0;
    }
    var tail := rsiValues[|rsiValues| - period..];
    var lo, hi := MinReal(tail), MaxReal(tail);
    if hi == lo {
      return 50.0;
    }
    var last := rsiValues[|rsiValues| - 1];
    LastBetween(rsiValues, period);
    r := Position(last, lo, hi);
  }

  /** The last value lies between the low and the high of the last `period`. */
  lemma LastBetween(rs: seq<real>, period: nat)
    requires 1 <= period <= |rs|
    ensures var tail := rs[|rs| - period..];
            MinReal(tail) <= rs[|rs| - 1] <= MaxReal(tail)
  {
    var tail := rs[|rs| - period..];
    assert rs[|rs| - 1] == tail[period - 1];
    assert rs[|rs| - 1] in tail;
  }

  /** Fewer than `2 * period - 1` prices leave too few window RSIs, and the answer is 50. */
  lemma ShortInputScoresFifty(prices: seq<real>, period: nat)
    requires period >= 1 && |prices| < 2 * period - 1
    ensures LegacyStochRsi(prices, period) == 50.0
  {
  }

  /** When the last window RSI is the highest of the last `period`, and they are not all equal, the answer is 100. */
  lemma LastAtHighScoresHundred(prices: seq<real>, period: nat)
    requires period >= 1
    requires LastIsStrictHigh(WindowRsis(prices, period), period)
    ensures LegacyStochRsi(prices, period) == 100.0
  {
    OscillatorAtHigh(WindowRsis(prices, period), period);
  }

  /** The last of the last `period` values is their maximum, and some value among them is lower. */
  predicate LastIsStrictHigh(rs: seq<real>, period: nat) {
    |rs| >= period >= 1
    && (forall j :: |rs| - period <= j < |rs| ==> rs[j] <= rs[|rs| - 1])
    && exists j :: |rs| - period <= j < |rs| && rs[j] < rs[|rs| - 1]
  }

  lemma OscillatorAtHigh(rs: seq<real>, period: nat)
    requires period >= 1 && LastIsStrictHigh(rs, period)
    ensures Oscillator(rs, period) == 100.0
  {
    var tail := rs[|rs| - period..];
    var last := rs[|rs| - 1];
    var lo, hi := MinReal(tail), MaxReal(tail);
    assert last in tail by {
      assert tail[period - 1] == last;
    }
    assert hi <= last by {
      var k :| 0 <= k < |tail| && tail[k] == hi;
      assert tail[k] == rs[|rs| - period + k];
    }
    var j :| |rs| - period <= j < |rs| && rs[j] < last;
    assert rs[j] in tail by {
      assert tail[j - (|rs| - period)] == rs[j];
    }
    assert lo < hi;
    assert Oscillator(rs, period) == Position(last, lo, hi);
  }
}
