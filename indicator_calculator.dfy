/**
 * The indicator driver (backend/indicator_calculator.py): daily bars are resampled
 * into weekly or monthly bars, and every indicator is computed on them and reduced
 * to its last valid value, unless there are too few bars.
 */
module IndicatorCalculator {
  import opened Wrappers
  import opened Series
  import opened Calendar
  import opened Records
  import Config
  import Rsi
  import StochasticRsi
  import Mfi
  import ConnorsRsi
  import WilliamsR
  import Rvi
  import AdaptiveRsi

  // ---- last valid value ----

  /** `_get_last_value_from_series`: the last defined entry, None when there is none. */
  function LastValid(xs: Col): (r: Option<real>)
    ensures r.Some? <==> exists j :: 0 <= j < |xs| && xs[j].Some?
    ensures r.Some? ==> exists j :: 0 <= j < |xs| && xs[j] == r && forall k :: j < k < |xs| ==> xs[k].None?
  {
    if |xs| == 0 then None
    else if xs[|xs| - 1].Some? then xs[|xs| - 1]
    else
      var init := xs[..|xs| - 1];
      assert forall j :: 0 <= j < |init| ==> init[j] == xs[j];
      LastValid(init)
  }

  /** The last valid value inherits every bound its series keeps. */
  lemma LastValidWithin(xs: Col, lo: real, hi: real)
    requires DefinedWithin(xs, lo, hi)
    ensures LastValid(xs).Some? ==> lo <= LastValid(xs).value <= hi
  {
    if LastValid(xs).Some? {
      var j :| 0 <= j < |xs| && xs[j] == LastValid(xs);
      assert xs[j].Some?;
    }
  }

  /** The last valid value inherits a strict upper bound its series keeps. */
  lemma LastValidBelow(xs: Col, hi: real)
    requires DefinedBelow(xs, hi)
    ensures LastValid(xs).Some? ==> LastValid(xs).value < hi
  {
    if LastValid(xs).Some? {
      var j :| 0 <= j < |xs| && xs[j] == LastValid(xs);
      assert xs[j].Some?;
    }
  }

  // ---- resampling ----

  /** The two rules `resample_ohlc_data` accepts: weeks ending on Monday and month ends. */
  datatype Rule = WeekMon | MonthEnd

  /** An invalid rule becomes `ME` when it mentions an M in either case, otherwise `W-MON`. */
  function CoerceRule(rule: string): (r: Rule)
    ensures rule == "W-MON" ==> r == WeekMon
    ensures rule == "ME" ==> r == MonthEnd
    ensures r == MonthEnd ==> 'M' in rule || 'm' in rule
    ensures rule != "W-MON" && ('M' in rule || 'm' in rule) ==> r == MonthEnd
  {
    if rule == "W-MON" then WeekMon
    else if rule == "ME" then MonthEnd
    else if 'M' in rule || 'm' in rule then MonthEnd
    else WeekMon
  }

  /** Day 0 (1970-01-01) was a Thursday; Monday is weekday 0. */
  function Weekday(n: Day): int {
    (n + 3) % 7
  }

  /** The Monday a `W-MON` bucket holding day n is labelled with: n itself or the next one. */
  function WeekEnd(n: Day): (k: Day)
    ensures n <= k < n + 7 && Weekday(k) == 0
  {
    var w := Weekday(n);
    var k := n + (7 - w) % 7;
    if w == 0 then k
    else
      DivModUnique(k + 3, 7, (n + 3) / 7 + 1, 0);
      k
  }

  /** The last day of the month holding day n: the label of its `ME` bucket. */
  function MonthEndOf(n: Day): (k: Day)
    requires n >= MinDay
    ensures n <= k
    ensures FromDay(k) == Date(FromDay(n).year, FromDay(n).month, DaysInMonth(FromDay(n).year, FromDay(n).month))
  {
    var d := FromDay(n);
    var e := Date(d.year, d.month, DaysInMonth(d.year, d.month));
    ToDayOrder(e, d);
    DateRoundTrip(e);
    ToDay(e)
  }

  /** The bucket label of a day under a rule. */
  function Label(rule: Rule, n: Day): (k: Day)
    requires n >= MinDay
    ensures n <= k
  {
    match rule
    case WeekMon => WeekEnd(n)
    case MonthEnd => MonthEndOf(n)
  }

  /** Two Mondays closer than a week apart are the same day. */
  lemma MondaysApart(a: Day, b: Day)
    requires Weekday(a) == 0 && Weekday(b) == 0 && a < b
    ensures b - a >= 7
  {
    DivModUnique(a + 3, 7, (a + 3) / 7, 0);
    DivModUnique(b + 3, 7, (b + 3) / 7, 0);
  }

  /** A later day never lands in an earlier bucket. */
  lemma LabelMonotone(rule: Rule, a: Day, b: Day)
    requires MinDay <= a <= b
    ensures Label(rule, a) <= Label(rule, b)
  {
    match rule
    case WeekMon =>
      if WeekEnd(b) < WeekEnd(a) {
        MondaysApart(WeekEnd(b), WeekEnd(a));
      }
    case MonthEnd =>
      var da, db := FromDay(a), FromDay(b);
      ToDayOrder(db, da);
      var ea := Date(da.year, da.month, DaysInMonth(da.year, da.month));
      var eb := Date(db.year, db.month, DaysInMonth(db.year, db.month));
      if ea != eb {
        assert Before(ea, eb);
        ToDayOrder(ea, eb);
      }
  }

  /** One row of a daily (or resampled) frame: the index date and its bar. */
  datatype DailyBar = DailyBar(day: Day, bar: Bar)

  predicate InRange(rows: seq<DailyBar>) {
    forall i :: 0 <= i < |rows| ==> rows[i].day >= MinDay
  }

  predicate SortedByDay(rows: seq<DailyBar>) {
    forall i, j :: 0 <= i < j < |rows| ==> rows[i].day <= rows[j].day
  }

  /** Insert one row before the first row with a later or equal day. */
  function InsertByDay(r: DailyBar, rows: seq<DailyBar>): (s: seq<DailyBar>)
    requires SortedByDay(rows)
    ensures SortedByDay(s)
    ensures multiset(s) == multiset(rows) + multiset{r}
    ensures |s| == |rows| + 1 && (s[0] == r || (|rows| > 0 && s[0] == rows[0]))
  {
    if |rows| == 0 then [r]
    else if r.day <= rows[0].day then [r] + rows
    else
      var tail := InsertByDay(r, rows[1..]);
      assert rows == [rows[0]] + rows[1..];
      assert rows[0].day <= tail[0].day;
      [rows[0]] + tail
  }

  /** `daily_df.sort_index()`, keeping rows of equal day in input order. */
  function SortByDay(rows: seq<DailyBar>): (s: seq<DailyBar>)
    ensures SortedByDay(s)
    ensures multiset(s) == multiset(rows)
  {
    if |rows| == 0 then []
    else
      assert rows == [rows[0]] + rows[1..];
      InsertByDay(rows[0], SortByDay(rows[1..]))
  }

  /** Sorting keeps every row's day, so the rows stay inside the calendar. */
  lemma SortKeepsRange(rows: seq<DailyBar>)
    requires InRange(rows)
    ensures InRange(SortByDay(rows))
  {
    var s := SortByDay(rows);
    forall i | 0 <= i < |s| ensures s[i].day >= MinDay {
      assert s[i] in multiset(rows);
    }
  }

  /** Fold one more day into a bucket: keep the open, widen high and low, take the close, add the volume. */
  function Merge(acc: Bar, b: Bar): Bar {
    Bar(acc.open, Max(acc.high, b.high), Min(acc.low, b.low), b.close, acc.volume + b.volume)
  }

  function SumVolume(g: seq<DailyBar>): real {
    if |g| == 0 then 0.0 else SumVolume(g[..|g| - 1]) + g[|g| - 1].bar.volume
  }

  /** first/max/min/last/sum over the days of one bucket. */
  function Aggregate(g: seq<DailyBar>): (b: Bar)
    requires |g| > 0
    ensures b.open == g[0].bar.open && b.close == g[|g| - 1].bar.close
    ensures forall j :: 0 <= j < |g| ==> g[j].bar.low >= b.low && g[j].bar.high <= b.high
    ensures exists j :: 0 <= j < |g| && b.high == g[j].bar.high
    ensures exists j :: 0 <= j < |g| && b.low == g[j].bar.low
    ensures b.volume == SumVolume(g)
  {
    if |g| == 1 then g[0].bar
    else
      var init := g[..|g| - 1];
      assert forall j :: 0 <= j < |init| ==> init[j] == g[j];
      Merge(Aggregate(init), g[|g| - 1].bar)
  }

  /** The bucket label of every day of a frame. */
  function LabelsOf(rows: seq<DailyBar>, rule: Rule): (ls: seq<Day>)
    requires InRange(rows)
    ensures |ls| == |rows|
    ensures forall i :: 0 <= i < |rows| ==> ls[i] == Label(rule, rows[i].day)
  {
    seq(|rows|, i requires 0 <= i < |rows| => Label(rule, rows[i].day))
  }

  predicate NonDecreasing(ls: seq<Day>) {
    forall i, j :: 0 <= i < j < |ls| ==> ls[i] <= ls[j]
  }

  /** A sorted frame has non-decreasing labels. */
  lemma SortedLabels(rows: seq<DailyBar>, rule: Rule)
    requires InRange(rows) && SortedByDay(rows)
    ensures NonDecreasing(LabelsOf(rows, rule))
  {
    var ls := LabelsOf(rows, rule);
    forall i, j | 0 <= i < j < |ls| ensures ls[i] <= ls[j] {
      LabelMonotone(rule, rows[i].day, rows[j].day);
    }
  }

  /** The days of a frame whose label is k, in order. */
  function InBucket(rows: seq<DailyBar>, ls: seq<Day>, k: Day): seq<DailyBar>
    requires |ls| == |rows|
  {
    if |rows| == 0 then []
    else
      InBucket(rows[..|rows| - 1], ls[..|rows| - 1], k)
      + (if ls[|rows| - 1] == k then [rows[|rows| - 1]] else [])
  }

  /** Group a labelled frame: a day joins the last bucket when it shares its label. */
  function Buckets(rows: seq<DailyBar>, ls: seq<Day>): (out: seq<DailyBar>)
    requires |ls| == |rows|
    ensures |out| <= |rows|
  {
    if |rows| == 0 then []
    else
      var prev := Buckets(rows[..|rows| - 1], ls[..|rows| - 1]);
      var r, k := rows[|rows| - 1], ls[|rows| - 1];
      if |prev| > 0 && prev[|prev| - 1].day == k
      then prev[..|prev| - 1] + [DailyBar(k, Merge(prev[|prev| - 1].bar, r.bar))]
      else prev + [DailyBar(k, r.bar)]
  }

  /** The frame `resample_ohlc_data` groups: the input, sorted first when it is not ascending. */
  function SortedFrame(rows: seq<DailyBar>): (s: seq<DailyBar>)
    requires InRange(rows)
    ensures InRange(s) && SortedByDay(s) && multiset(s) == multiset(rows)
  {
    if SortedByDay(rows) then rows
    else
      SortKeepsRange(rows);
      SortByDay(rows)
  }

  /** `resample_ohlc_data(daily_df, rule)` */
  function Resample(rows: seq<DailyBar>, rule: string): (out: seq<DailyBar>)
    requires InRange(rows)
  {
    if |rows| == 0 then []
    else
      var sorted := SortedFrame(rows);
      Buckets(sorted, LabelsOf(sorted, CoerceRule(rule)))
  }

  // ---- properties of the resampler ----

  /** Bucket labels strictly increase, and the last one is the last day's label. */
  predicate Ascending(ls: seq<Day>, out: seq<DailyBar>) {
    (forall i, j :: 0 <= i < j < |out| ==> out[i].day < out[j].day)
    && (|ls| > 0 ==> |out| > 0 && out[|out| - 1].day == ls[|ls| - 1])
  }

  /** With non-decreasing labels the buckets come out in strictly increasing label order. */
  lemma {:induction false} BucketsAscending(rows: seq<DailyBar>, ls: seq<Day>)
    requires |ls| == |rows| && NonDecreasing(ls)
    ensures Ascending(ls, Buckets(rows, ls))
  {
    if |rows| > 0 {
      var n := |rows|;
      BucketsAscending(rows[..n - 1], ls[..n - 1]);
      if n > 1 {
        assert ls[..n - 1][n - 2] <= ls[n - 1];
      }
    }
  }

  /** A label no day carries has an empty bucket. */
  lemma {:induction false} InBucketEmpty(rows: seq<DailyBar>, ls: seq<Day>, k: Day)
    requires |ls| == |rows|
    requires forall j :: 0 <= j < |ls| ==> ls[j] != k
    ensures InBucket(rows, ls, k) == []
  {
    if |rows| > 0 {
      var n := |rows|;
      assert forall j :: 0 <= j < n - 1 ==> ls[..n - 1][j] == ls[j];
      InBucketEmpty(rows[..n - 1], ls[..n - 1], k);
    }
  }

  /** Appending one day to a bucket's days folds it into the bucket's bar. */
  lemma AggregateSnoc(g: seq<DailyBar>, r: DailyBar)
    requires |g| > 0
    ensures Aggregate(g + [r]) == Merge(Aggregate(g), r.bar)
  {
    assert (g + [r])[..|g|] == g;
  }

  /** Every bucket is the first/max/min/last/sum of exactly the days carrying its label. */
  predicate Aggregated(rows: seq<DailyBar>, ls: seq<Day>, out: seq<DailyBar>)
    requires |ls| == |rows|
  {
    forall i :: 0 <= i < |out| ==> BucketOk(rows, ls, out[i])
  }

  /** A bucket whose label some day carries, holding the aggregate of exactly those days. */
  predicate BucketOk(rows: seq<DailyBar>, ls: seq<Day>, b: DailyBar)
    requires |ls| == |rows|
  {
    |InBucket(rows, ls, b.day)| > 0 && b.bar == Aggregate(InBucket(rows, ls, b.day))
  }

  /** The day's contribution to a bucket's days. */
  lemma InBucketLast(rows: seq<DailyBar>, ls: seq<Day>, x: Day)
    requires |ls| == |rows| > 0
    ensures InBucket(rows, ls, x)
            == InBucket(rows[..|rows| - 1], ls[..|rows| - 1], x) + (if ls[|rows| - 1] == x then [rows[|rows| - 1]] else [])
  {
  }

  /** A bucket other than the last day's keeps its days. */
  lemma UnchangedBucket(rows: seq<DailyBar>, ls: seq<Day>, x: Day)
    requires |ls| == |rows| > 0 && ls[|rows| - 1] != x
    ensures InBucket(rows, ls, x) == InBucket(rows[..|rows| - 1], ls[..|rows| - 1], x)
  {
    InBucketLast(rows, ls, x);
  }

  /**
   * With non-decreasing labels, each bucket aggregates exactly its own days, so
   * no bucket is empty and none mixes labels.
   */
  lemma {:induction false} BucketsAggregate(rows: seq<DailyBar>, ls: seq<Day>)
    requires |ls| == |rows| && NonDecreasing(ls)
    ensures Aggregated(rows, ls, Buckets(rows, ls))
  {
    if |rows| > 0 {
      var n := |rows|;
      var p, lp := rows[..n - 1], ls[..n - 1];
      BucketsAggregate(p, lp);
      BucketsAscending(p, lp);
      var prev := Buckets(p, lp);
      if |prev| > 0 && prev[|prev| - 1].day == ls[n - 1] {
        AggregateJoin(rows, ls, prev);
      } else {
        AggregateOpen(rows, ls, prev);
      }
    }
  }

  /** The step where the new day joins the last bucket. */
  lemma AggregateJoin(rows: seq<DailyBar>, ls: seq<Day>, prev: seq<DailyBar>)
    requires |ls| == |rows| > 0
    requires prev == Buckets(rows[..|rows| - 1], ls[..|rows| - 1])
    requires Aggregated(rows[..|rows| - 1], ls[..|rows| - 1], prev)
    requires Ascending(ls[..|rows| - 1], prev)
    requires |prev| > 0 && prev[|prev| - 1].day == ls[|rows| - 1]
    ensures Aggregated(rows, ls, Buckets(rows, ls))
  {
    var n, m := |rows|, |prev|;
    var p, lp := rows[..n - 1], ls[..n - 1];
    var r, k := rows[n - 1], ls[n - 1];
    var out := Buckets(rows, ls);
    assert out == prev[..m - 1] + [DailyBar(k, Merge(prev[m - 1].bar, r.bar))];
    InBucketLast(rows, ls, k);
    AggregateSnoc(InBucket(p, lp, k), r);
    forall i | 0 <= i < m ensures BucketOk(rows, ls, out[i]) {
      if i < m - 1 {
        assert out[i] == prev[i] && prev[i].day < k;
        UnchangedBucket(rows, ls, prev[i].day);
        assert BucketOk(p, lp, prev[i]);
      } else {
        var g := InBucket(p, lp, k);
        assert BucketOk(p, lp, prev[m - 1]);
        assert InBucket(rows, ls, k) == g + [r];
        assert out[i].bar == Merge(Aggregate(g), r.bar);
      }
    }
  }

  /** A day that opens a bucket carries a label no earlier day carries. */
  lemma FreshLabel(rows: seq<DailyBar>, ls: seq<Day>, prev: seq<DailyBar>)
    requires |ls| == |rows| > 0 && NonDecreasing(ls)
    requires |prev| < |rows| && Ascending(ls[..|rows| - 1], prev)
    requires |prev| == 0 || prev[|prev| - 1].day != ls[|rows| - 1]
    ensures InBucket(rows, ls, ls[|rows| - 1]) == [rows[|rows| - 1]]
    ensures forall i :: 0 <= i < |prev| ==> prev[i].day < ls[|rows| - 1]
  {
    var n, m := |rows|, |prev|;
    var lp, k := ls[..n - 1], ls[n - 1];
    if n > 1 {
      assert prev[m - 1].day == lp[n - 2] == ls[n - 2];
      assert ls[n - 2] < k;
      forall j | 0 <= j < n - 1 ensures lp[j] != k {
        assert lp[j] == ls[j] <= ls[n - 2];
      }
      forall i | 0 <= i < m - 1 ensures prev[i].day < k {
        assert prev[i].day < prev[m - 1].day;
      }
    }
    InBucketEmpty(rows[..n - 1], lp, k);
    InBucketLast(rows, ls, k);
  }

  /** The step where the new day opens a bucket of its own. */
  lemma AggregateOpen(rows: seq<DailyBar>, ls: seq<Day>, prev: seq<DailyBar>)
    requires |ls| == |rows| > 0 && NonDecreasing(ls)
    requires prev == Buckets(rows[..|rows| - 1], ls[..|rows| - 1])
    requires Aggregated(rows[..|rows| - 1], ls[..|rows| - 1], prev)
    requires Ascending(ls[..|rows| - 1], prev)
    requires |prev| == 0 || prev[|prev| - 1].day != ls[|rows| - 1]
    ensures Aggregated(rows, ls, Buckets(rows, ls))
  {
    var n, m := |rows|, |prev|;
    var p, lp := rows[..n - 1], ls[..n - 1];
    var r, k := rows[n - 1], ls[n - 1];
    var out := Buckets(rows, ls);
    assert out == prev + [DailyBar(k, r.bar)];
    FreshLabel(rows, ls, prev);
    forall i | 0 <= i < m + 1 ensures BucketOk(rows, ls, out[i]) {
      if i < m {
        assert out[i] == prev[i] && prev[i].day < k;
        UnchangedBucket(rows, ls, prev[i].day);
        assert BucketOk(p, lp, prev[i]);
      } else {
        assert InBucket(rows, ls, k) == [r];
      }
    }
  }

  /** Some bucket carries label x. */
  predicate HasLabel(out: seq<DailyBar>, x: Day) {
    exists i :: 0 <= i < |out| && out[i].day == x
  }

  /** Every day lands in the bucket carrying its label. */
  lemma {:induction false} BucketsCover(rows: seq<DailyBar>, ls: seq<Day>)
    requires |ls| == |rows| && NonDecreasing(ls)
    ensures forall j :: 0 <= j < |ls| ==> HasLabel(Buckets(rows, ls), ls[j])
  {
    if |rows| > 0 {
      var n := |rows|;
      var p, lp := rows[..n - 1], ls[..n - 1];
      BucketsCover(p, lp);
      BucketsAscending(rows, ls);
      var prev := Buckets(p, lp);
      var out := Buckets(rows, ls);
      forall j | 0 <= j < n ensures HasLabel(out, ls[j]) {
        if j < n - 1 {
          assert lp[j] == ls[j] && HasLabel(prev, lp[j]);
          CoverStep(rows, ls, prev, j);
        } else {
          assert out[|out| - 1].day == ls[j];
        }
      }
    }
  }

  /** A label present before the new day is still present after it. */
  lemma CoverStep(rows: seq<DailyBar>, ls: seq<Day>, prev: seq<DailyBar>, j: nat)
    requires |ls| == |rows| > 0 && j < |rows| - 1
    requires prev == Buckets(rows[..|rows| - 1], ls[..|rows| - 1])
    requires HasLabel(prev, ls[j])
    ensures HasLabel(Buckets(rows, ls), ls[j])
  {
    var n, m := |rows|, |prev|;
    var last, k := rows[n - 1], ls[n - 1];
    var i :| 0 <= i < m && prev[i].day == ls[j];
    if m > 0 && prev[m - 1].day == k {
      var out := prev[..m - 1] + [DailyBar(k, Merge(prev[m - 1].bar, last.bar))];
      assert Buckets(rows, ls) == out;
      assert out[i].day == prev[i].day;
    } else {
      var out := prev + [DailyBar(k, last.bar)];
      assert Buckets(rows, ls) == out;
      assert out[i] == prev[i];
    }
  }

  /**
   * What `resample_ohlc_data` delivers: no bars for no days; otherwise, over the
   * days sorted by date, one bar per bucket label in strictly increasing order,
   * each the first/max/min/last/sum of exactly the days carrying that label, and
   * every day's label among them.
   */
  lemma ResampleCorrect(rows: seq<DailyBar>, rule: string)
    requires InRange(rows)
    ensures |rows| == 0 ==> Resample(rows, rule) == []
    ensures var sorted := SortedFrame(rows);
            var ls := LabelsOf(sorted, CoerceRule(rule));
            var out := Resample(rows, rule);
            Ascending(ls, out) && Aggregated(sorted, ls, out)
            && forall j :: 0 <= j < |ls| ==> HasLabel(out, ls[j])
  {
    var sorted := SortedFrame(rows);
    var ls := LabelsOf(sorted, CoerceRule(rule));
    SortedLabels(sorted, CoerceRule(rule));
    BucketsAscending(sorted, ls);
    BucketsAggregate(sorted, ls);
    BucketsCover(sorted, ls);
    if |rows| == 0 {
      assert sorted == [];
    }
  }

  /** Folding a well-formed day into a well-formed bucket keeps it well formed. */
  lemma MergeWellFormed(a: Bar, b: Bar)
    requires WellFormed(a) && WellFormed(b)
    ensures WellFormed(Merge(a, b))
  {
  }

  /** Resampling well-formed days gives well-formed bars. */
  lemma {:induction false} BucketsWellFormed(rows: seq<DailyBar>, ls: seq<Day>)
    requires |ls| == |rows|
    requires forall i :: 0 <= i < |rows| ==> WellFormed(rows[i].bar)
    ensures forall i :: 0 <= i < |Buckets(rows, ls)| ==> WellFormed(Buckets(rows, ls)[i].bar)
  {
    if |rows| > 0 {
      var n := |rows|;
      var p, lp := rows[..n - 1], ls[..n - 1];
      assert forall i :: 0 <= i < |p| ==> p[i] == rows[i];
      BucketsWellFormed(p, lp);
      var prev, last := Buckets(p, lp), rows[n - 1];
      var m := |prev|;
      if m > 0 && prev[m - 1].day == ls[n - 1] {
        MergeWellFormed(prev[m - 1].bar, last.bar);
        var out := prev[..m - 1] + [DailyBar(ls[n - 1], Merge(prev[m - 1].bar, last.bar))];
        assert Buckets(rows, ls) == out;
        forall i | 0 <= i < |out|
          ensures WellFormed(out[i].bar)
        {
          if i < m - 1 {
            assert out[i] == prev[i];
          }
        }
      } else {
        var out := prev + [DailyBar(ls[n - 1], last.bar)];
        assert Buckets(rows, ls) == out;
        forall i | 0 <= i < |out|
          ensures WellFormed(out[i].bar)
        {
          if i < m {
            assert out[i] == prev[i];
          }
        }
      }
    }
  }

  /** The bars of a resampled frame. */
  function BarsOf(out: seq<DailyBar>): (bars: seq<Bar>)
    ensures |bars| == |out| && forall i :: 0 <= i < |out| ==> bars[i] == out[i].bar
  {
    seq(|out|, i requires 0 <= i < |out| => out[i].bar)
  }

  // ---- the driver ----

  /** `params.get(name, default)` for an indicator's parameters; every configured value is positive. */
  function Param(key: string, timeframe: string, name: string, default: nat): (r: nat)
    requires default >= 1
    ensures r >= 1
    ensures name in Config.GetIndicatorParams(key, timeframe) ==> r == Config.GetIndicatorParams(key, timeframe)[name]
  {
    var params := Config.GetIndicatorParams(key, timeframe);
    if name in params then
      Config.ParamsPositive(key, timeframe, name);
      params[name]
    else default
  }

  function MinInt(a: int, b: int): int { if a <= b then a else b }
  function MaxInt(a: int, b: int): int { if a >= b then a else b }

  /** The Connors rank length `calculate_crsi_series` passes on, shrunk to the data for monthly and weekly bars. */
  function RankLength(timeframe: string, n: nat): (r: nat)
    ensures r >= 1
    ensures timeframe == "monthly" ==> r <= Param("crsi", timeframe, "rank_len", 12) && r <= MaxInt(5, n - 10)
    ensures timeframe == "weekly" ==> r <= Param("crsi", timeframe, "rank_len", 50) && r <= MaxInt(10, n - 10)
  {
    if timeframe == "monthly" then MinInt(Param("crsi", timeframe, "rank_len", 12), MaxInt(5, n - 10))
    else if timeframe == "weekly" then MinInt(Param("crsi", timeframe, "rank_len", 50), MaxInt(10, n - 10))
    else Param("crsi", timeframe, "rank_len", 100)
  }

  /** The series `calculate_indicators_from_ohlc_df` computes for one key. */
  function SeriesFor(key: string, bars: seq<Bar>, timeframe: string): (r: Col)
    ensures |r| == |bars|
  {
    var closes := Closes(bars);
    if key == "rsi" then Rsi.RsiSeries(closes, Param(key, timeframe, "period", 14))
    else if key == "stochRsi" then
      StochasticRsi.StochRsiSeries(closes, Param(key, timeframe, "rsi_period", 14),
        Param(key, timeframe, "stoch_period", 14), Param(key, timeframe, "k_smooth", 3))
    else if key == "mfi" then Mfi.MfiSeries(bars, Param(key, timeframe, "period", 14))
    else if key == "crsi" then
      ConnorsRsi.CrsiSeries(closes, Param(key, timeframe, "rsi_short_len", 3),
        Param(key, timeframe, "rsi_streak_len", 2), RankLength(timeframe, |bars|))
    else if key == "williamsR" then WilliamsR.WilliamsRSeries(bars, Param(key, timeframe, "period", 14))
    else if key == "rvi" then Rvi.RviSeries(bars, Param(key, timeframe, "period", 10))
    else if key == "adaptiveRsi" then
      AdaptiveRsi.AdaptiveRsiSeries(closes, Param(key, timeframe, "period", 14),
        Param(key, timeframe, "kama_n", 10), Param(key, timeframe, "kama_fast_ema", 2),
        Param(key, timeframe, "kama_slow_ema", 30))
    else NoneSeries(|bars|)
  }

  /**
   * The shrunk rank length is what lets Connors RSI run on short resampled
   * frames: with the minimum 20 monthly or weekly bars the length gate passes.
   */
  lemma CrsiGatePassesOnResampledFrames(timeframe: string, n: nat)
    requires timeframe == "monthly" || timeframe == "weekly"
    requires n >= Config.MinCandlesForCalculation
    ensures RankLength(timeframe, n) + Param("crsi", timeframe, "rsi_short_len", 3)
            + Param("crsi", timeframe, "rsi_streak_len", 2) + 5 <= n
  {
    Config.CrsiShortAndStreak(timeframe);
  }

  /** The bounds each indicator's values keep. */
  function LowerBound(key: string): real {
    if key == "williamsR" then -100.0 else if key == "rvi" then -1.0 else 0.0
  }

  function UpperBound(key: string): real {
    if key == "williamsR" then 0.0 else if key == "rvi" then 1.0 else 100.0
  }

  lemma RsiWithin(closes: Col, p: nat)
    ensures DefinedWithin(Rsi.RsiSeries(closes, p), 0.0, 100.0)
    ensures DefinedBelow(Rsi.RsiSeries(closes, p), 100.0)
  {
    forall i | 0 <= i < |closes| {
      Rsi.RsiRange(closes, p, i);
    }
  }

  lemma AdaptiveRsiWithin(closes: Col, period: nat, kamaN: nat, fast: nat, slow: nat)
    ensures DefinedWithin(AdaptiveRsi.AdaptiveRsiSeries(closes, period, kamaN, fast, slow), 0.0, 100.0)
  {
    forall i | 0 <= i < |closes| {
      AdaptiveRsi.AdaptiveRsiRange(closes, period, kamaN, fast, slow, i);
    }
  }

  /** On well-formed bars every configured series stays within its indicator's bounds. */
  lemma SeriesWithinBounds(key: string, bars: seq<Bar>, timeframe: string)
    requires key in IndicatorKeys
    requires forall i :: 0 <= i < |bars| ==> WellFormed(bars[i])
    ensures DefinedWithin(SeriesFor(key, bars, timeframe), LowerBound(key), UpperBound(key))
  {
    var closes := Closes(bars);
    if key == "rsi" {
      RsiWithin(closes, Param(key, timeframe, "period", 14));
    } else if key == "stochRsi" {
      StochasticRsi.StochRsiRange(closes, Param(key, timeframe, "rsi_period", 14),
        Param(key, timeframe, "stoch_period", 14), Param(key, timeframe, "k_smooth", 3));
    } else if key == "mfi" {
      Mfi.MfiRange(bars, Param(key, timeframe, "period", 14));
    } else if key == "crsi" {
      ConnorsRsi.CrsiRange(closes, Param(key, timeframe, "rsi_short_len", 3),
        Param(key, timeframe, "rsi_streak_len", 2), RankLength(timeframe, |bars|));
    } else if key == "williamsR" {
      WilliamsR.WilliamsRRange(bars, Param(key, timeframe, "period", 14));
    } else if key == "rvi" {
      Rvi.RviRange(bars, Param(key, timeframe, "period", 10));
    } else {
      AdaptiveRsiWithin(closes, Param(key, timeframe, "period", 14),
        Param(key, timeframe, "kama_n", 10), Param(key, timeframe, "kama_fast_ema", 2),
        Param(key, timeframe, "kama_slow_ema", 30));
    }
  }

  /** `{key: None for key in DEFAULT_INDICATOR_PARAMS}` */
  function NoneIndicators(): (m: IndicatorMap)
    ensures forall k :: k in m <==> k in IndicatorKeys
    ensures forall k :: k in m ==> m[k] == None
  {
    map k | k in IndicatorKeys :: None
  }

  /** Too few bars, or no defined close, leaves every indicator unavailable. */
  predicate TooFewBars(bars: seq<Bar>) {
    |bars| == 0 || |bars| < Config.MinCandlesForCalculation || AllNone(Closes(bars))
  }

  /** The last valid value of one key's series. */
  function LatestOf(key: string, bars: seq<Bar>, timeframe: string): Option<real> {
    LastValid(SeriesFor(key, bars, timeframe))
  }

  /** `calculate_indicators_from_ohlc_df(ohlc_df, timeframe)` as a specification. */
  function Indicators(bars: seq<Bar>, timeframe: string): (m: IndicatorMap)
    ensures forall k :: k in m <==> k in IndicatorKeys
  {
    if TooFewBars(bars) then NoneIndicators()
    else LatestMap(bars, timeframe)
  }

  /** The last valid value of every key's series. */
  function LatestMap(bars: seq<Bar>, timeframe: string): (m: IndicatorMap)
    ensures forall k :: k in m <==> k in IndicatorKeys
    ensures forall k :: k in m ==> m[k] == LatestOf(k, bars, timeframe)
  {
    map k | k in IndicatorKeys :: LatestOf(k, bars, timeframe)
  }

  /** Two indicator maps with the same keys and the same value at each key are equal. */
  lemma SameEntries(m: IndicatorMap, l: IndicatorMap)
    requires forall k :: k in m <==> k in l
    requires forall k :: k in m ==> m[k] == l[k]
    ensures m == l
  {
  }

  /** `calculate_indicators_from_ohlc_df`: the loop over the seven series. */
  method CalculateIndicators(bars: seq<Bar>, timeframe: string) returns (m: IndicatorMap)
    ensures m == Indicators(bars, timeframe)
  {
    if |bars| == 0 || |bars| < Config.MinCandlesForCalculation || AllNone(Closes(bars)) {
      return NoneIndicators();
    }
    m := map[];
    for i := 0 to |IndicatorKeys|
      invariant forall k :: k in m <==> k in IndicatorKeys[..i]
      invariant forall k :: k in m ==> m[k] == LatestOf(k, bars, timeframe)
    {
      var key := IndicatorKeys[i];
      m := m[key := LatestOf(key, bars, timeframe)];
    }
    assert IndicatorKeys[..|IndicatorKeys|] == IndicatorKeys;
    SameEntries(m, LatestMap(bars, timeframe));
    assert !TooFewBars(bars);
  }

  /**
   * Every value `calculate_indicators_from_ohlc_df` reports from well-formed
   * bars lies in its indicator's range: [0, 100] for the oscillators,
   * [-100, 0] for Williams %R and [-1, 1] for RVI.
   */
  lemma IndicatorsWithinBounds(bars: seq<Bar>, timeframe: string, key: string)
    requires forall i :: 0 <= i < |bars| ==> WellFormed(bars[i])
    requires key in IndicatorKeys
    ensures key in Indicators(bars, timeframe)
    ensures var v := Indicators(bars, timeframe)[key];
            v.Some? ==> LowerBound(key) <= v.value <= UpperBound(key)
    ensures var v := Indicators(bars, timeframe)[key];
            key == "rsi" && v.Some? ==> v.value < 100.0
  {
    if !TooFewBars(bars) {
      SeriesWithinBounds(key, bars, timeframe);
      LastValidWithin(SeriesFor(key, bars, timeframe), LowerBound(key), UpperBound(key));
      if key == "rsi" {
        RsiWithin(Closes(bars), Param(key, timeframe, "period", 14));
        LastValidBelow(SeriesFor(key, bars, timeframe), 100.0);
      }
    }
  }

  /** Fewer than the minimum bars, or no defined close, reports every indicator as unavailable. */
  lemma TooFewBarsGiveNone(bars: seq<Bar>, timeframe: string)
    requires |bars| < Config.MinCandlesForCalculation || AllNone(Closes(bars))
    ensures Indicators(bars, timeframe) == NoneIndicators()
  {
  }

  /** Past the gate, an indicator is reported exactly when its series has some defined value. */
  lemma ReportedIffDefined(bars: seq<Bar>, timeframe: string, key: string)
    requires !TooFewBars(bars) && key in IndicatorKeys
    ensures Indicators(bars, timeframe)[key].Some?
            <==> exists j :: 0 <= j < |bars| && SeriesFor(key, bars, timeframe)[j].Some?
  {
  }
}
