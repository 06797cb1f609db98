/**
 * The composite scores of backend/services/composite_metrics_service.py: the
 * Composite Overbought Score (COS) and the Bull Strength Index (BSI), each a
 * weighted sum over the indicators of how far a value sits from its neutral
 * point towards its overbought threshold, clamped to [0, 100].
 */
module CompositeMetricsService {
  import opened Wrappers
  import opened Records
  import Config

  /** One item of `indicators_dict.items()`: a key and its monthly/weekly pair, or None. */
  datatype Entry = Entry(key: string, values: Option<TfValues>)

  /** The four running sums before the final clip. */
  datatype Sums = Sums(cosMonthly: real, cosWeekly: real, bsiMonthly: real, bsiWeekly: real)

  const NoSums := Sums(0.0, 0.0, 0.0, 0.0)

  /** The same three tables cover the same keys; a weighted key has a threshold and a neutral point. */
  predicate Weighted(key: string) {
    key in Config.CompositeMetricsWeights
  }

  function Weight(key: string): (w: real)
    requires Weighted(key)
    ensures w > 0.0
  {
    Config.WeightsSumToOne();
    Config.CompositeMetricsWeights[key]
  }

  function Threshold(key: string): real
    requires Weighted(key)
  {
    Config.CompositeTablesCoverIndicators();
    Config.CompositeMetricsThresholds[key]
  }

  function Neutral(key: string): real
    requires Weighted(key)
  {
    Config.CompositeTablesCoverIndicators();
    Config.CompositeMetricsNeutralPoints[key]
  }

  /** `threshold - neutral` */
  function Denominator(key: string): (d: real)
    requires Weighted(key)
    ensures d > 0.0
  {
    Config.CompositeTablesCoverIndicators();
    Config.ThresholdAboveNeutral(key);
    Threshold(key) - Neutral(key)
  }

  /** A key is scored when it is weighted and its threshold is not within 1e-6 of its neutral point. */
  predicate Scored(key: string) {
    Weighted(key) && !(Abs(Denominator(key)) < 0.000001)
  }

  /** `((value - neutral) / denominator) * 100` */
  function Normalized(key: string, v: real): (r: real)
    requires Weighted(key)
    ensures v == Neutral(key) ==> r == 0.0
    ensures v == Threshold(key) ==> r == 100.0
    ensures v < Neutral(key) <==> r < 0.0
  {
    var d := Denominator(key);
    DivisionSigns(v - Neutral(key), d);
    ((v - Neutral(key)) / d) * 100.0
  }

  lemma DivisionSigns(x: real, d: real)
    requires d > 0.0
    ensures x < 0.0 <==> x / d < 0.0
    ensures x == 0.0 ==> x / d == 0.0
    ensures x == d ==> x / d == 1.0
  {
  }

  lemma NormalizedMonotone(key: string, u: real, v: real)
    requires Weighted(key) && u <= v
    ensures Normalized(key, u) <= Normalized(key, v)
  {
    var d, n := Denominator(key), Neutral(key);
    assert (v - n) / d - (u - n) / d == (v - u) / d;
  }

  /** One side's COS contribution: the weight times the normalised score clamped to [0, 150]; nothing for None. */
  function CosPart(key: string, v: Option<real>): (r: real)
    requires Weighted(key)
    ensures 0.0 <= r <= Weight(key) * Config.CompositeMaxNormalizedScoreComponent
    ensures v.None? ==> r == 0.0
  {
    if v.None? then 0.0
    else Scaled(Weight(key), Clamp(0.0, Config.CompositeMaxNormalizedScoreComponent, Normalized(key, v.value)), Config.CompositeMaxNormalizedScoreComponent)
  }

  /** One side's BSI contribution: the weight times the normalised score clamped to [0, 100]; nothing for None. */
  function BsiPart(key: string, v: Option<real>): (r: real)
    requires Weighted(key)
    ensures 0.0 <= r <= Weight(key) * 100.0
    ensures v.None? ==> r == 0.0
  {
    if v.None? then 0.0
    else Scaled(Weight(key), Clamp(0.0, 100.0, Normalized(key, v.value)), 100.0)
  }

  /** `w * c` for a positive weight and a contribution in [0, cap]. */
  function Scaled(w: real, c: real, cap: real): (r: real)
    requires w > 0.0 && 0.0 <= c <= cap
    ensures 0.0 <= r <= w * cap
  {
    w * c
  }

  lemma ScaledMonotone(w: real, c: real, e: real, cap: real)
    requires w > 0.0 && 0.0 <= c <= e <= cap
    ensures Scaled(w, c, cap) <= Scaled(w, e, cap)
  {
    assert w * e - w * c == w * (e - c);
  }

  /** One pass of the loop body over an item. */
  function AddEntry(s: Sums, e: Entry): (r: Sums)
    ensures !Scored(e.key) || e.values.None? ==> r == s
  {
    if !Scored(e.key) || e.values.None? then s
    else
      var m, w := e.values.value.monthly, e.values.value.weekly;
      Sums(s.cosMonthly + CosPart(e.key, m), s.cosWeekly + CosPart(e.key, w),
           s.bsiMonthly + BsiPart(e.key, m), s.bsiWeekly + BsiPart(e.key, w))
  }

  /** The four sums after the loop has visited `entries` in order. */
  function SumsOf(entries: seq<Entry>): Sums {
    if |entries| == 0 then NoSums
    else AddEntry(SumsOf(entries[..|entries| - 1]), entries[|entries| - 1])
  }

  /** The final clip of each sum to [0, 100]. */
  function Finalize(s: Sums): CompositeMetrics {
    CompositeMetrics(Clamp(0.0, 100.0, s.cosMonthly), Clamp(0.0, 100.0, s.cosWeekly),
                     Clamp(0.0, 100.0, s.bsiMonthly), Clamp(0.0, 100.0, s.bsiWeekly))
  }

  predicate InScoreRange(c: CompositeMetrics) {
    0.0 <= c.cosMonthly <= 100.0 && 0.0 <= c.cosWeekly <= 100.0
    && 0.0 <= c.bsiMonthly <= 100.0 && 0.0 <= c.bsiWeekly <= 100.0
  }

  /** `calculate_composite_metrics(indicators_dict)` as a specification. */
  function Composite(entries: seq<Entry>): (c: CompositeMetrics)
    ensures InScoreRange(c)
  {
    Finalize(SumsOf(entries))
  }

  /** `calculate_composite_metrics`: the loop accumulating the four sums. */
  method CalculateCompositeMetrics(entries: seq<Entry>) returns (c: CompositeMetrics)
    ensures c == Composite(entries)
    ensures InScoreRange(c)
  {
    var cosMonthly, cosWeekly, bsiMonthly, bsiWeekly := 0.0, 0.0, 0.0, 0.0;
    for i := 0 to |entries|
      invariant Sums(cosMonthly, cosWeekly, bsiMonthly, bsiWeekly) == SumsOf(entries[..i])
    {
      assert entries[..i + 1][..i] == entries[..i];
      var e := entries[i];
      if !Scored(e.key) || e.values.None? {
        continue;
      }
      var monthly, weekly := e.values.value.monthly, e.values.value.weekly;
      if monthly.Some? {
        cosMonthly := cosMonthly + CosPart(e.key, monthly);
        bsiMonthly := bsiMonthly + BsiPart(e.key, monthly);
      }
      if weekly.Some? {
        cosWeekly := cosWeekly + CosPart(e.key, weekly);
        bsiWeekly := bsiWeekly + BsiPart(e.key, weekly);
      }
    }
    assert entries[..|entries|] == entries;
    c := Finalize(Sums(cosMonthly, cosWeekly, bsiMonthly, bsiWeekly));
  }

  // ---- properties ----

  predicate NonNegativeSums(s: Sums) {
    s.cosMonthly >= 0.0 && s.cosWeekly >= 0.0 && s.bsiMonthly >= 0.0 && s.bsiWeekly >= 0.0
  }

  /** Every contribution is non-negative, so the raw sums never go below zero. */
  lemma {:induction false} SumsNonNegative(entries: seq<Entry>)
    ensures NonNegativeSums(SumsOf(entries))
  {
    if |entries| > 0 {
      SumsNonNegative(entries[..|entries| - 1]);
    }
  }

  /** An item with no value on either side. */
  predicate Empty(e: Entry) {
    e.values.None? || (e.values.value.monthly.None? && e.values.value.weekly.None?)
  }

  /** With no value anywhere all four scores are 0. */
  lemma {:induction false} AllMissingGivesZero(entries: seq<Entry>)
    requires forall i :: 0 <= i < |entries| ==> Empty(entries[i])
    ensures SumsOf(entries) == NoSums
    ensures Composite(entries) == ZeroComposite
  {
    if |entries| > 0 {
      AllMissingGivesZero(entries[..|entries| - 1]);
    }
  }

  /** A key outside the weights, a None item, or a degenerate denominator leaves every sum as it was. */
  lemma SkippedItemAddsNothing(entries: seq<Entry>, e: Entry)
    requires !Scored(e.key) || e.values.None?
    ensures SumsOf(entries + [e]) == SumsOf(entries)
  {
    assert (entries + [e])[..|entries|] == entries;
  }

  /**
   * A missing side adds nothing to that side, and the other side's
   * contribution is the same as if both were present: nothing is renormalised.
   */
  lemma MissingSideAddsNothing(s: Sums, key: string, m: real, w: real)
    requires Scored(key)
    ensures var onlyWeekly := AddEntry(s, Entry(key, Some(TfValues(None, Some(w)))));
            var both := AddEntry(s, Entry(key, Some(TfValues(Some(m), Some(w)))));
            onlyWeekly.cosMonthly == s.cosMonthly && onlyWeekly.bsiMonthly == s.bsiMonthly
            && onlyWeekly.cosWeekly == both.cosWeekly && onlyWeekly.bsiWeekly == both.bsiWeekly
  {
  }

  /** A value at its threshold scores 100 before weighting; a value at its neutral point scores 0. */
  lemma ThresholdAndNeutralScores(key: string)
    requires Scored(key)
    ensures CosPart(key, Some(Threshold(key))) == Weight(key) * 100.0
    ensures BsiPart(key, Some(Threshold(key))) == Weight(key) * 100.0
    ensures CosPart(key, Some(Neutral(key))) == 0.0 && BsiPart(key, Some(Neutral(key))) == 0.0
  {
  }

  /** A monthly value at its neutral point adds nothing to either monthly sum. */
  lemma NeutralAddsNothing(s: Sums, key: string, weekly: Option<real>)
    requires Scored(key)
    ensures var r := AddEntry(s, Entry(key, Some(TfValues(Some(Neutral(key)), weekly))));
            r.cosMonthly == s.cosMonthly && r.bsiMonthly == s.bsiMonthly
  {
    ThresholdAndNeutralScores(key);
  }

  lemma SingleItem(e: Entry)
    ensures SumsOf([e]) == AddEntry(NoSums, e)
  {
    assert [e][..0] == [];
  }

  /** `x` is no more than `y`: both missing, or both present and ordered. */
  predicate AtMost(x: Option<real>, y: Option<real>) {
    (x.None? && y.None?) || (x.Some? && y.Some? && x.value <= y.value)
  }

  /** `b` has the same items as `a`, each value at least as large. */
  predicate Raised(a: seq<Entry>, b: seq<Entry>) {
    |a| == |b|
    && forall i :: 0 <= i < |a| ==> RaisedEntry(a[i], b[i])
  }

  predicate RaisedEntry(x: Entry, y: Entry) {
    x.key == y.key && x.values.Some? == y.values.Some?
    && (x.values.Some? ==> AtMost(x.values.value.monthly, y.values.value.monthly)
                           && AtMost(x.values.value.weekly, y.values.value.weekly))
  }

  predicate SumsAtMost(s: Sums, t: Sums) {
    s.cosMonthly <= t.cosMonthly && s.cosWeekly <= t.cosWeekly
    && s.bsiMonthly <= t.bsiMonthly && s.bsiWeekly <= t.bsiWeekly
  }

  lemma PartsMonotone(key: string, x: Option<real>, y: Option<real>)
    requires Weighted(key) && AtMost(x, y)
    ensures CosPart(key, x) <= CosPart(key, y) && BsiPart(key, x) <= BsiPart(key, y)
  {
    if x.Some? {
      NormalizedMonotone(key, x.value, y.value);
      var u, v := Normalized(key, x.value), Normalized(key, y.value);
      ClampMonotone(0.0, Config.CompositeMaxNormalizedScoreComponent, u, v);
      ClampMonotone(0.0, 100.0, u, v);
      ScaledMonotone(Weight(key), Clamp(0.0, Config.CompositeMaxNormalizedScoreComponent, u),
        Clamp(0.0, Config.CompositeMaxNormalizedScoreComponent, v), Config.CompositeMaxNormalizedScoreComponent);
      ScaledMonotone(Weight(key), Clamp(0.0, 100.0, u), Clamp(0.0, 100.0, v), 100.0);
    }
  }

  lemma AddEntryMonotone(s: Sums, t: Sums, x: Entry, y: Entry)
    requires SumsAtMost(s, t) && RaisedEntry(x, y)
    ensures SumsAtMost(AddEntry(s, x), AddEntry(t, y))
  {
    if Scored(x.key) && x.values.Some? {
      PartsMonotone(x.key, x.values.value.monthly, y.values.value.monthly);
      PartsMonotone(x.key, x.values.value.weekly, y.values.value.weekly);
    }
  }

  lemma {:induction false} SumsMonotone(a: seq<Entry>, b: seq<Entry>)
    requires Raised(a, b)
    ensures SumsAtMost(SumsOf(a), SumsOf(b))
  {
    if |a| > 0 {
      var n := |a|;
      assert Raised(a[..n - 1], b[..n - 1]);
      SumsMonotone(a[..n - 1], b[..n - 1]);
      AddEntryMonotone(SumsOf(a[..n - 1]), SumsOf(b[..n - 1]), a[n - 1], b[n - 1]);
    }
  }

  /**
   * Raising indicator values never lowers any of the four scores: the weights
   * and the threshold-minus-neutral denominators are all positive.
   */
  lemma CompositeMonotone(a: seq<Entry>, b: seq<Entry>)
    requires Raised(a, b)
    ensures Composite(a).cosMonthly <= Composite(b).cosMonthly
    ensures Composite(a).cosWeekly <= Composite(b).cosWeekly
    ensures Composite(a).bsiMonthly <= Composite(b).bsiMonthly
    ensures Composite(a).bsiWeekly <= Composite(b).bsiWeekly
  {
    SumsMonotone(a, b);
    var s, t := SumsOf(a), SumsOf(b);
    ClampMonotone(0.0, 100.0, s.cosMonthly, t.cosMonthly);
    ClampMonotone(0.0, 100.0, s.cosWeekly, t.cosWeekly);
    ClampMonotone(0.0, 100.0, s.bsiMonthly, t.bsiMonthly);
    ClampMonotone(0.0, 100.0, s.bsiWeekly, t.bsiWeekly);
  }
}
