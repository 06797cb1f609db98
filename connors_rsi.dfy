/**
 * Connors RSI (backend/indicators/connors_rsi.py): the mean of a short RSI of the
 * closes, an RSI of the up/down streak length, and the percent rank of the
 * latest one-bar rate of change within a trailing window.
 */
module ConnorsRsi {
  import opened Wrappers
  import opened Series
  import Rsi

  // ---- streaks ----

  /** Bar j closed above bar j - 1 (both defined). */
  predicate Rose(closes: Col, j: nat)
    requires j < |closes|
  {
    j > 0 && closes[j].Some? && closes[j - 1].Some? && closes[j].value - closes[j - 1].value > 0.0
  }

  /** Bar j closed below bar j - 1 (both defined). */
  predicate Fell(closes: Col, j: nat)
    requires j < |closes|
  {
    j > 0 && closes[j].Some? && closes[j - 1].Some? && closes[j].value - closes[j - 1].value < 0.0
  }

  /**
   * The streak at bar i: a rise extends a positive streak or starts one at 1, a
   * fall extends a negative streak or starts one at -1, an unchanged or
   * undefined change resets it to 0.
   */
  function StreakAt(closes: Col, i: nat): int
    requires i < |closes|
  {
    if i == 0 then 0
    else
      var prev := StreakAt(closes, i - 1);
      if Rose(closes, i) then (if prev > 0 then prev + 1 else 1)
      else if Fell(closes, i) then (if prev < 0 then prev - 1 else -1)
      else 0
  }

  function StreakColumn(closes: Col): (r: Col)
    ensures |r| == |closes| && AllSome(r)
  {
    Lift(seq(|closes|, i requires 0 <= i < |closes| => StreakAt(closes, i) as real))
  }

  // ---- percent rank of the rate of change ----

  /** `close.pct_change()` pads NaN closes forward before dividing. */
  function ForwardFill(xs: Col): (r: Col)
    ensures |r| == |xs|
    ensures forall i :: 0 <= i < |xs| && xs[i].Some? ==> r[i] == xs[i]
  {
    if |xs| == 0 then []
    else
      var front := ForwardFill(xs[..|xs| - 1]);
      front + [if xs[|xs| - 1].Some? || |front| == 0 then xs[|xs| - 1] else front[|front| - 1]]
  }

  /**
   * `(close.pct_change() * 100).fillna(0)`. A change over a zero previous close
   * is taken as 0 as well.
   */
  function RateOfChange(closes: Col): (r: seq<real>)
    ensures |r| == |closes|
  {
    var f := ForwardFill(closes);
    seq(|closes|, i requires 0 <= i < |closes| =>
      if i > 0 && f[i].Some? && f[i - 1].Some? && f[i - 1].value != 0.0
      then (f[i].value / f[i - 1].value - 1.0) * 100.0 else 0.0)
  }

  function CountLess(xs: seq<real>, x: real): (n: nat)
    ensures n <= |xs|
  {
    if |xs| == 0 then 0 else CountLess(xs[..|xs| - 1], x) + (if xs[|xs| - 1] < x then 1 else 0)
  }

  function CountEqual(xs: seq<real>, x: real): (n: nat)
    ensures n <= |xs|
  {
    if |xs| == 0 then 0 else CountEqual(xs[..|xs| - 1], x) + (if xs[|xs| - 1] == x then 1 else 0)
  }

  /** Values below and values equal to x are disjoint, and x itself is counted. */
  lemma {:induction false} CountsPartition(xs: seq<real>, x: real)
    ensures CountLess(xs, x) + CountEqual(xs, x) <= |xs|
    ensures x in xs ==> CountEqual(xs, x) >= 1
  {
    if |xs| > 0 {
      var front := xs[..|xs| - 1];
      CountsPartition(front, x);
      assert xs == front + [xs[|xs| - 1]];
    }
  }

  lemma RankBounds(less: nat, eq: nat, m: nat)
    requires eq >= 1 && less + eq <= m
    ensures 0.0 < 100.0 * (less as real + (eq as real + 1.0) / 2.0) / m as real <= 100.0
  {
    var s := less as real + (eq as real + 1.0) / 2.0;
    assert 0.0 < s <= m as real;
    DivBounds(100.0 * s, m as real, 0.0, 100.0);
  }

  /**
   * `rank(pct=True, method='average').iloc[-1] * 100`: the average 1-based rank
   * of the last value among ties, over the window length, as a percentage.
   */
  function PercentRankOfLast(win: seq<real>): (r: real)
    requires |win| >= 1
    ensures 0.0 < r <= 100.0
  {
    var x := win[|win| - 1];
    var less, eq := CountLess(win, x), CountEqual(win, x);
    CountsPartition(win, x);
    RankBounds(less, eq, |win|);
    100.0 * (less as real + (eq as real + 1.0) / 2.0) / |win| as real
  }

  /** `roc1.rolling(rank_len, min_periods=rank_len).apply(...)` */
  function PercentRankSeries(roc: seq<real>, w: nat): (r: Col)
    ensures |r| == |roc|
    ensures forall i :: 0 <= i < |roc| ==> (r[i].Some? <==> 1 <= w <= i + 1)
    ensures DefinedWithin(r, 0.0, 100.0)
  {
    seq(|roc|, i requires 0 <= i < |roc| =>
      if 1 <= w <= i + 1 then Some(PercentRankOfLast(roc[i + 1 - w..i + 1])) else None)
  }

  // ---- the index ----

  /** `(rsi1 + rsi_streak + percent_rank_roc) / 3.0` at one position. */
  function MeanOfThree(a: Option<real>, b: Option<real>, c: Option<real>): (r: Option<real>)
    ensures r.Some? <==> a.Some? && b.Some? && c.Some?
    ensures r.Some? && 0.0 <= a.value <= 100.0 && 0.0 <= b.value <= 100.0 && 0.0 <= c.value <= 100.0
            ==> 0.0 <= r.value <= 100.0
  {
    if a.Some? && b.Some? && c.Some? then Some((a.value + b.value + c.value) / 3.0) else None
  }

  predicate Gated(closes: Col, shortLen: nat, streakLen: nat, rankLen: nat) {
    AllNone(closes) || |closes| < rankLen + shortLen + streakLen + 5
  }

  /** `connors_rsi.calculate(df, rsi_short_len, rsi_streak_len, rank_len)` as a specification. */
  function CrsiSeries(closes: Col, shortLen: nat, streakLen: nat, rankLen: nat): (r: Col)
    ensures |r| == |closes|
  {
    if Gated(closes, shortLen, streakLen, rankLen) then NoneSeries(|closes|)
    else
      var rsi1 := Rsi.RsiSeries(closes, shortLen);
      var rsiStreak := Rsi.RsiSeries(StreakColumn(closes), streakLen);
      var rank := PercentRankSeries(RateOfChange(closes), rankLen);
      seq(|closes|, i requires 0 <= i < |closes| => MeanOfThree(rsi1[i], rsiStreak[i], rank[i]))
  }

  /** `connors_rsi.calculate`: the streak loop writes one bar at a time. */
  method Calculate(closes: Col, shortLen: nat, streakLen: nat, rankLen: nat) returns (crsi: Col)
    ensures crsi == CrsiSeries(closes, shortLen, streakLen, rankLen)
  {
    var n := |closes|;
    if AllNone(closes) || n < rankLen + shortLen + streakLen + 5 {
      return NoneSeries(n);
    }
    var rsi1 := Rsi.Calculate(closes, shortLen);
    var streaks := new int[n](_ => 0);
    var i := 1;
    while i < n
      invariant 1 <= i <= n
      invariant forall j :: 0 <= j < i ==> streaks[j] == StreakAt(closes, j)
    {
      var prev := streaks[i - 1];
      if closes[i].None? || closes[i - 1].None? {
        streaks[i] := 0;
      } else if closes[i].value - closes[i - 1].value > 0.0 {
        streaks[i] := if prev > 0 then prev + 1 else 1;
      } else if closes[i].value - closes[i - 1].value < 0.0 {
        streaks[i] := if prev < 0 then prev - 1 else -1;
      } else {
        streaks[i] := 0;
      }
      i := i + 1;
    }
    var done := streaks[..];
    var streakCol := Lift(seq(n, j requires 0 <= j < n => done[j] as real));
    assert streakCol == StreakColumn(closes);
    var rsiStreak := Rsi.Calculate(streakCol, streakLen);
    var rank := PercentRankSeries(RateOfChange(closes), rankLen);
    crsi := seq(n, j requires 0 <= j < n => MeanOfThree(rsi1[j], rsiStreak[j], rank[j]));
  }

  // ---- properties ----

  lemma {:induction false} StreakBound(closes: Col, i: nat)
    requires i < |closes|
    ensures -(i as int) <= StreakAt(closes, i) <= i
  {
    if i > 0 {
      StreakBound(closes, i - 1);
    }
  }

  /**
   * A positive streak k at bar i counts exactly the run of rises ending at i:
   * bars i-k+1..i all rose and bar i-k did not.
   */
  lemma {:induction false} UpStreakIsRun(closes: Col, i: nat)
    requires i < |closes| && StreakAt(closes, i) > 0
    ensures var k := StreakAt(closes, i);
            k <= i && (forall j :: i - k < j <= i ==> Rose(closes, j)) && !Rose(closes, i - k)
  {
    var prev := StreakAt(closes, i - 1);
    assert Rose(closes, i);
    if prev > 0 {
      UpStreakIsRun(closes, i - 1);
    } else {
      assert !Rose(closes, i - 1);
    }
  }

  /** A negative streak -k at bar i counts exactly the run of falls ending at i. */
  lemma {:induction false} DownStreakIsRun(closes: Col, i: nat)
    requires i < |closes| && StreakAt(closes, i) < 0
    ensures var k := -StreakAt(closes, i);
            k <= i && (forall j :: i - k < j <= i ==> Fell(closes, j)) && !Fell(closes, i - k)
  {
    var prev := StreakAt(closes, i - 1);
    assert Fell(closes, i);
    if prev < 0 {
      DownStreakIsRun(closes, i - 1);
    } else {
      assert !Fell(closes, i - 1);
    }
  }

  /** The streak's sign is the direction of the latest change. */
  lemma StreakSign(closes: Col, i: nat)
    requires i < |closes|
    ensures StreakAt(closes, i) > 0 <==> Rose(closes, i)
    ensures StreakAt(closes, i) < 0 <==> Fell(closes, i)
  {
    if i > 0 {
      StreakBound(closes, i - 1);
    }
  }

  lemma {:induction false} AllBelowCounts(xs: seq<real>, x: real)
    requires forall j :: 0 <= j < |xs| ==> xs[j] < x
    ensures CountLess(xs, x) == |xs| && CountEqual(xs, x) == 0
  {
    if |xs| > 0 {
      AllBelowCounts(xs[..|xs| - 1], x);
    }
  }

  /** A latest change strictly above every other change in the window ranks 100. */
  lemma StrictMaximumRanksHundred(win: seq<real>)
    requires |win| >= 1
    requires forall j :: 0 <= j < |win| - 1 ==> win[j] < win[|win| - 1]
    ensures PercentRankOfLast(win) == 100.0
  {
    var m := |win|;
    var x := win[m - 1];
    var front := win[..m - 1];
    AllBelowCounts(front, x);
    assert win[..m - 1] == front;
    assert CountLess(win, x) == m - 1 && CountEqual(win, x) == 1;
    assert (m - 1) as real + (1.0 + 1.0) / 2.0 == m as real;
  }

  /** Every defined Connors RSI lies in [0, 100]. */
  lemma CrsiRange(closes: Col, shortLen: nat, streakLen: nat, rankLen: nat)
    ensures DefinedWithin(CrsiSeries(closes, shortLen, streakLen, rankLen), 0.0, 100.0)
  {
    var r := CrsiSeries(closes, shortLen, streakLen, rankLen);
    if !Gated(closes, shortLen, streakLen, rankLen) {
      var rsi1 := Rsi.RsiSeries(closes, shortLen);
      var rsiStreak := Rsi.RsiSeries(StreakColumn(closes), streakLen);
      var rank := PercentRankSeries(RateOfChange(closes), rankLen);
      forall i | 0 <= i < |r| && r[i].Some? ensures 0.0 <= r[i].value <= 100.0 {
        assert r[i] == MeanOfThree(rsi1[i], rsiStreak[i], rank[i]);
        Rsi.RsiRange(closes, shortLen, i);
        Rsi.RsiRange(StreakColumn(closes), streakLen, i);
      }
    }
  }

  /** Too few bars for the three look-backs gives an all-NaN result. */
  lemma TooFewBars(closes: Col, shortLen: nat, streakLen: nat, rankLen: nat)
    requires |closes| < rankLen + shortLen + streakLen + 5
    ensures AllNone(CrsiSeries(closes, shortLen, streakLen, rankLen))
  {
  }
}
