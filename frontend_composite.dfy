/**
 * The fallback scorer `calculateCompositeMetrics` in components/App.js, used
 * when the backend sends no composite scores. It skips an indicator unless
 * both its monthly and weekly values are numbers, clamps each normalised COS
 * term to [-50, 150], measures BSI from half the threshold like the legacy
 * scripts, and clamps all four results to [0, 100].
 */
module FrontendComposite {
  import opened Wrappers
  import opened Records
  import Config
  import CompositeMetricsService
  import LegacyScoring

  type Entry = CompositeMetricsService.Entry

  /** The four running sums of the `forEach`. */
  type Sums = CompositeMetricsService.Sums

  /** The guard at the top of the `forEach` body: a weighted key whose two values are numbers. */
  predicate Counted(e: Entry) {
    e.key in Config.CompositeMetricsWeights && e.key in Config.CompositeMetricsThresholds
    && e.values.Some? && e.values.value.monthly.Some? && e.values.value.weekly.Some?
  }

  /** One side's COS term: the legacy normalisation clamped to [-50, 150], times the weight. */
  function CosTerm(key: string, v: real): real
    requires key in Config.CompositeMetricsThresholds
  {
    LegacyScoring.Weight(key) * Clamp(-50.0, 150.0, LegacyScoring.CosNorm(key, v))
  }

  /** The JavaScript denominator: neutral minus threshold for Williams %R, threshold minus neutral otherwise. */
  function Den(key: string): real
    requires key in Config.CompositeMetricsThresholds
  {
    var t, n := LegacyScoring.Threshold(key), LegacyScoring.BsiNeutral(key);
    if key == "williamsR" then n - t else t - n
  }

  /** One side's BSI distance: 0 for a degenerate denominator, then clamped to [0, 100]. */
  function Distance(key: string, v: real): (r: real)
    requires key in Config.CompositeMetricsThresholds
    ensures 0.0 <= r <= 100.0
  {
    var n, d := LegacyScoring.BsiNeutral(key), Den(key);
    var dist :=
      if Abs(d) > 0.000001 then
        if key == "williamsR" then (n - v) / d * 100.0 else (v - n) / d * 100.0
      else 0.0;
    Clamp(0.0, 100.0, dist)
  }

  /** One side's BSI term: the distance times the weight. */
  function BsiTerm(key: string, v: real): real
    requires key in Config.CompositeMetricsThresholds
  {
    CompositeMetricsService.Scaled(LegacyScoring.Weight(key), Distance(key, v), 100.0)
  }

  function AddEntry(s: Sums, e: Entry): Sums {
    if !Counted(e) then s
    else
      var m, w := e.values.value.monthly.value, e.values.value.weekly.value;
      CompositeMetricsService.Sums(
        s.cosMonthly + CosTerm(e.key, m), s.cosWeekly + CosTerm(e.key, w),
        s.bsiMonthly + BsiTerm(e.key, m), s.bsiWeekly + BsiTerm(e.key, w))
  }

  function SumsOf(entries: seq<Entry>): Sums {
    if |entries| == 0 then CompositeMetricsService.NoSums
    else AddEntry(SumsOf(entries[..|entries| - 1]), entries[|entries| - 1])
  }

  /** `calculateCompositeMetrics(indicatorsData)` as a specification; None is a null argument. */
  function Composite(data: Option<seq<Entry>>): (c: CompositeMetrics)
    ensures CompositeMetricsService.InScoreRange(c)
    ensures data.None? || data.value == [] ==> c == ZeroComposite
  {
    if data.None? || data.value == [] then ZeroComposite
    else CompositeMetricsService.Finalize(SumsOf(data.value))
  }

  /** `calculateCompositeMetrics`: the `forEach` accumulating the four sums. */
  method CalculateCompositeMetrics(data: Option<seq<Entry>>) returns (c: CompositeMetrics)
    ensures c == Composite(data)
  {
    if data.None? || |data.value| == 0 {
      return ZeroComposite;
    }
    var entries := data.value;
    var monthlyCos, weeklyCos, monthlyBsi, weeklyBsi := 0.0, 0.0, 0.0, 0.0;
    for i := 0 to |entries|
      invariant CompositeMetricsService.Sums(monthlyCos, weeklyCos, monthlyBsi, weeklyBsi) == SumsOf(entries[..i])
    {
      assert entries[..i + 1][..i] == entries[..i];
      var e := entries[i];
      if !Counted(e) {
        continue;
      }
      var m, w := e.values.value.monthly.value, e.values.value.weekly.value;
      monthlyCos := monthlyCos + CosTerm(e.key, m);
      weeklyCos := weeklyCos + CosTerm(e.key, w);
      monthlyBsi := monthlyBsi + BsiTerm(e.key, m);
      weeklyBsi := weeklyBsi + BsiTerm(e.key, w);
    }
    assert entries[..|entries|] == entries;
    c := CompositeMetricsService.Finalize(CompositeMetricsService.Sums(monthlyCos, weeklyCos, monthlyBsi, weeklyBsi));
  }

  // ---- properties ----

  /** The denominator guard never fires with the configured thresholds: the distance is the legacy scripts' one. */
  lemma DistanceIsLegacy(key: string, v: real)
    requires key in Config.CompositeMetricsThresholds
    ensures Distance(key, v) == LegacyScoring.BsiDistance(key, v)
  {
    assert LegacyScoring.Threshold(key) != 0.0;
    if key == "williamsR" {
      assert LegacyScoring.Threshold(key) == -20.0;
    }
  }

  /** An item with one side missing is skipped on both sides, unlike the backend service. */
  lemma HalfMissingItemSkipped(s: Sums, key: string, w: real)
    ensures AddEntry(s, CompositeMetricsService.Entry(key, Some(TfValues(None, Some(w))))) == s
  {
  }

  /** A side value as the legacy scripts read it from the service's JSON: NaN is written as `null`. */
  function AsField(v: Option<real>): (f: LegacyScoring.Field<real>)
    ensures f.Present? <==> v.Some?
    ensures v.Some? ==> f.value == v.value
  {
    if v.Some? then LegacyScoring.Present(v.value) else LegacyScoring.Null
  }

  /** An item as the legacy scripts see it: the service always writes both side keys. */
  function Lift(e: Entry): LegacyScoring.Entry {
    LegacyScoring.Entry(e.key,
      if e.values.None? then None
      else Some(LegacyScoring.SideFields(AsField(e.values.value.monthly), AsField(e.values.value.weekly))))
  }

  /** `items` is the legacy scripts' view of `entries`, item by item. */
  predicate Lifts(items: seq<LegacyScoring.Entry>, entries: seq<Entry>) {
    |items| == |entries| && forall i :: 0 <= i < |entries| ==> items[i] == Lift(entries[i])
  }

  /** An item the legacy BSI loop accepts is counted here and adds the same pair of terms. */
  lemma ItemAgreesWithLegacy(e: Entry)
    requires LegacyScoring.Clean(Lift(e))
    ensures LegacyScoring.ItemError(Lift(e), [LegacyScoring.Monthly, LegacyScoring.Weekly]).None?
    ensures Counted(e)
    ensures LegacyScoring.BsiItem(Lift(e)) == (BsiTerm(e.key, e.values.value.monthly.value), BsiTerm(e.key, e.values.value.weekly.value))
  {
    LegacyScoring.CleanHasNoError(Lift(e));
    Config.CompositeTablesCoverIndicators();
    var v := e.values.value;
    DistanceIsLegacy(e.key, v.monthly.value);
    DistanceIsLegacy(e.key, v.weekly.value);
  }

  lemma {:induction false} BsiSumsAgreeWithLegacy(items: seq<LegacyScoring.Entry>, entries: seq<Entry>)
    requires Lifts(items, entries)
    requires forall i :: 0 <= i < |items| ==> LegacyScoring.Clean(items[i])
    ensures LegacyScoring.BsiSums(items) == Success((SumsOf(entries).bsiMonthly, SumsOf(entries).bsiWeekly))
  {
    if |entries| > 0 {
      var n := |entries|;
      var p, q := entries[..n - 1], items[..n - 1];
      assert Lifts(q, p) by {
        forall i | 0 <= i < n - 1
          ensures q[i] == Lift(p[i])
        {
          assert q[i] == items[i] && p[i] == entries[i];
        }
      }
      assert forall i :: 0 <= i < |q| ==> LegacyScoring.Clean(q[i]) by {
        forall i | 0 <= i < |q| ensures LegacyScoring.Clean(q[i]) { assert q[i] == items[i]; }
      }
      BsiSumsAgreeWithLegacy(q, p);
      var e := entries[n - 1];
      assert items[n - 1] == Lift(e);
      ItemAgreesWithLegacy(e);
      assert SumsOf(entries) == AddEntry(SumsOf(p), e);
    }
  }

  /**
   * On items the legacy BSI script accepts, the frontend's BSI is the legacy
   * one: the same neutral points, distances, weights and final clamp.
   */
  lemma BsiAgreesWithLegacy(items: seq<LegacyScoring.Entry>, entries: seq<Entry>)
    requires |entries| > 0 && Lifts(items, entries)
    requires forall i :: 0 <= i < |items| ==> LegacyScoring.Clean(items[i])
    ensures LegacyScoring.Bsi(items) == Success((Composite(Some(entries)).bsiMonthly, Composite(Some(entries)).bsiWeekly))
  {
    BsiSumsAgreeWithLegacy(items, entries);
  }

  lemma RsiTables()
    ensures "rsi" in Config.CompositeMetricsThresholds && "rsi" in Config.CompositeMetricsNeutralPoints
    ensures "rsi" in Config.CompositeMetricsWeights
    ensures Config.CompositeMetricsThresholds["rsi"] == 70.0 && Config.CompositeMetricsNeutralPoints["rsi"] == 50.0
  {
  }

  lemma ServiceRsiAtNeutral()
    ensures CompositeMetricsService.Scored("rsi")
    ensures CompositeMetricsService.BsiPart("rsi", Some(50.0)) == 0.0
  {
    RsiTables();
  }

  lemma FrontendRsiAboveNeutral()
    ensures "rsi" in Config.CompositeMetricsThresholds
    ensures BsiTerm("rsi", 50.0) > 0.0
  {
    RsiTables();
    assert Distance("rsi", 50.0) > 0.0;
  }

  /**
   * The frontend and the backend service disagree on BSI: an RSI of 50 on both
   * sides sits at the service's neutral point and scores 0 there, but lies
   * above the frontend's neutral point of 35.
   */
  lemma BsiDiffersFromService()
    ensures var items := [CompositeMetricsService.Entry("rsi", Some(TfValues(Some(50.0), Some(50.0))))];
            CompositeMetricsService.Composite(items).bsiMonthly == 0.0
            && Composite(Some(items)).bsiMonthly > 0.0
  {
    var e := CompositeMetricsService.Entry("rsi", Some(TfValues(Some(50.0), Some(50.0))));
    ServiceSingle(e);
    FrontendSingle(e);
  }

  lemma ServiceSingle(e: Entry)
    requires e == CompositeMetricsService.Entry("rsi", Some(TfValues(Some(50.0), Some(50.0))))
    ensures CompositeMetricsService.Composite([e]).bsiMonthly == 0.0
  {
    CompositeMetricsService.SingleItem(e);
    ServiceRsiAtNeutral();
    RsiTables();
    assert CompositeMetricsService.Neutral("rsi") == 50.0;
    CompositeMetricsService.NeutralAddsNothing(CompositeMetricsService.NoSums, "rsi", Some(50.0));
  }

  lemma FrontendSingle(e: Entry)
    requires e == CompositeMetricsService.Entry("rsi", Some(TfValues(Some(50.0), Some(50.0))))
    ensures Composite(Some([e])).bsiMonthly > 0.0
  {
    assert [e][..0] == [];
    FrontendRsiAboveNeutral();
    RsiTables();
    assert Counted(e);
    assert SumsOf([]) == CompositeMetricsService.NoSums;
    var s := SumsOf([e]);
    assert s == AddEntry(CompositeMetricsService.NoSums, e);
    assert s.bsiMonthly == 0.0 + BsiTerm("rsi", 50.0);
  }
}
