/**
 * The older composite scorers that predate the backend service:
 * `calculate_composite_metrics` in generate_historical_metrics.py, and
 * `calculate_bsi` / `calculate_tsi` in update_historical_bsi.py and
 * update_historical_tsi.py. They read a JSON indicator dict, raise on a
 * missing key or a null value, leave COS unclamped, normalise Williams %R by a
 * special rule, and measure BSI from half the threshold rather than from the
 * configured neutral points. The scripts carry their own literal weight and
 * threshold tables, equal value for value to the backend configuration.
 */
module LegacyScoring {
  import opened Wrappers
  import opened Records
  import Config
  import CompositeMetricsService

  /** A key of a JSON object: missing, present with `null`, or present with a value. */
  datatype Field<T> = Absent | Null | Present(value: T)

  /** The dict an indicator key maps to: its "monthly" and "weekly" fields. */
  datatype SideFields = SideFields(monthly: Field<real>, weekly: Field<real>)

  /** One `key: value` pair of the indicator dict; `values` is None when the value is `null`. */
  datatype Entry = Entry(key: string, values: Option<SideFields>)

  /** The exception a script raises: a dict lookup that misses, or arithmetic on None. */
  datatype LegacyError = KeyError(key: string) | TypeError(key: string)

  datatype Side = Monthly | Weekly

  /** `indicators[key][side]` once the item's dict exists. */
  function SideValue(v: SideFields, side: Side): Field<real> {
    if side == Monthly then v.monthly else v.weekly
  }

  /** The dict key a side is read from. */
  function SideName(side: Side): string {
    if side == Monthly then "monthly" else "weekly"
  }

  /** The first of `sides`, in the order they are read, whose key the item's dict lacks. */
  function MissingSide(v: SideFields, sides: seq<Side>): (r: Option<Side>)
    ensures r.Some? ==> r.value in sides && SideValue(v, r.value).Absent?
    ensures r.None? ==> forall s :: s in sides ==> !SideValue(v, s).Absent?
  {
    if |sides| == 0 then None
    else if SideValue(v, sides[0]).Absent? then Some(sides[0])
    else MissingSide(v, sides[1..])
  }

  /** Keys in the order the scripts' weight dict lists them. */
  const WeightOrder: seq<string> := ["stochRsi", "crsi", "mfi", "rsi", "williamsR", "rvi", "adaptiveRsi"]

  predicate HasThreshold(key: string) {
    key in Config.CompositeMetricsThresholds
  }

  function Threshold(key: string): real
    requires HasThreshold(key)
  {
    Config.CompositeMetricsThresholds[key]
  }

  function Weight(key: string): (w: real)
    requires HasThreshold(key)
    ensures w > 0.0
  {
    Config.CompositeTablesCoverIndicators();
    Config.WeightsSumToOne();
    Config.CompositeMetricsWeights[key]
  }

  /**
   * The COS normalisation: `value / threshold * 100`, except Williams %R, which
   * scores 100 at or below its threshold and `|value| / |threshold| * 100` above it.
   */
  function CosNorm(key: string, v: real): real
    requires HasThreshold(key)
  {
    if key == "williamsR" then
      if v <= Threshold(key) then 100.0 else Abs(v) / Abs(Threshold(key)) * 100.0
    else v / Threshold(key) * 100.0
  }

  /** The neutral point the BSI scripts measure from: -50 for Williams %R, half the threshold otherwise. */
  function BsiNeutral(key: string): real
    requires HasThreshold(key)
  {
    if key == "williamsR" then -50.0 else Threshold(key) * 0.5
  }

  /** The BSI distance of one value, clamped to [0, 100]. */
  function BsiDistance(key: string, v: real): (r: real)
    requires HasThreshold(key)
    ensures 0.0 <= r <= 100.0
  {
    var n := BsiNeutral(key);
    if key == "williamsR" then Clamp(0.0, 100.0, (n - v) / (n - Threshold(key)) * 100.0)
    else Clamp(0.0, 100.0, (v - n) / (Threshold(key) - n) * 100.0)
  }

  /**
   * The checks one item passes before its `sides` values are used, in the
   * order the scripts make them: indexing a `null` dict, reading each side's
   * key, looking up the threshold, then arithmetic on a `null` side.
   */
  function ItemError(e: Entry, sides: seq<Side>): Option<LegacyError> {
    if e.values.None? then Some(TypeError(e.key))
    else if MissingSide(e.values.value, sides).Some? then Some(KeyError(SideName(MissingSide(e.values.value, sides).value)))
    else if !HasThreshold(e.key) then Some(KeyError(e.key))
    else if exists s :: s in sides && !SideValue(e.values.value, s).Present? then Some(TypeError(e.key))
    else None
  }

  /** A JSON number on both sides: the raw BSI of one item is its weighted pair of distances. */
  function BsiItem(e: Entry): (r: (real, real))
    requires ItemError(e, [Monthly, Weekly]).None?
    ensures 0.0 <= r.0 <= 100.0 * Weight(e.key) && 0.0 <= r.1 <= 100.0 * Weight(e.key)
  {
    var v := e.values.value;
    assert SideValue(v, Monthly) == v.monthly && SideValue(v, Weekly) == v.weekly;
    (CompositeMetricsService.Scaled(Weight(e.key), BsiDistance(e.key, v.monthly.value), 100.0),
     CompositeMetricsService.Scaled(Weight(e.key), BsiDistance(e.key, v.weekly.value), 100.0))
  }

  /** The raw monthly and weekly BSI sums over the items in order, or the first exception. */
  function BsiSums(entries: seq<Entry>): (r: Result<(real, real), LegacyError>)
    ensures r.Success? ==> r.value.0 >= 0.0 && r.value.1 >= 0.0
  {
    if |entries| == 0 then Success((0.0, 0.0))
    else
      var e := entries[|entries| - 1];
      match BsiSums(entries[..|entries| - 1])
      case Failure(err) => Failure(err)
      case Success(s) =>
        if ItemError(e, [Monthly, Weekly]).Some? then Failure(ItemError(e, [Monthly, Weekly]).value)
        else
          var d := BsiItem(e);
          Success((s.0 + d.0, s.1 + d.1))
  }

  /** `calculate_bsi(indicators)`: the two sums clamped to [0, 100]. */
  function Bsi(entries: seq<Entry>): (r: Result<(real, real), LegacyError>)
    ensures r.Success? <==> BsiSums(entries).Success?
    ensures r.Success? ==> 0.0 <= r.value.0 <= 100.0 && 0.0 <= r.value.1 <= 100.0
  {
    match BsiSums(entries)
    case Failure(err) => Failure(err)
    case Success(s) => Success((Clamp(0.0, 100.0, s.0), Clamp(0.0, 100.0, s.1)))
  }

  /** The loop of `calculate_bsi` over the items. */
  method BsiLoop(entries: seq<Entry>) returns (r: Result<(real, real), LegacyError>)
    ensures r == BsiSums(entries)
  {
    var monthly, weekly := 0.0, 0.0;
    for i := 0 to |entries|
      invariant BsiSums(entries[..i]) == Success((monthly, weekly))
    {
      assert entries[..i + 1][..i] == entries[..i];
      var e := entries[i];
      var err := ItemError(e, [Monthly, Weekly]);
      if err.Some? {
        BsiFailureSticks(entries, i + 1, |entries|);
        assert entries[..|entries|] == entries;
        return Failure(err.value);
      }
      var d := BsiItem(e);
      monthly, weekly := monthly + d.0, weekly + d.1;
    }
    assert entries[..|entries|] == entries;
    r := Success((monthly, weekly));
  }

  /** Once an item raises, the script never gets past it. */
  lemma {:induction false} BsiFailureSticks(entries: seq<Entry>, k: nat, j: nat)
    requires k <= j <= |entries| && BsiSums(entries[..k]).Failure?
    ensures BsiSums(entries[..j]) == BsiSums(entries[..k])
    decreases j
  {
    if j > k {
      BsiFailureSticks(entries, k, j - 1);
      assert entries[..j][..j - 1] == entries[..j - 1];
    }
  }

  /** `update_historical_bsi.calculate_bsi(indicators)` */
  method CalculateBsi(entries: seq<Entry>) returns (r: Result<(real, real), LegacyError>)
    ensures r == Bsi(entries)
  {
    var sums := BsiLoop(entries);
    if sums.Failure? {
      return Failure(sums.error);
    }
    r := Success((Clamp(0.0, 100.0, sums.value.0), Clamp(0.0, 100.0, sums.value.1)));
  }

  /**
   * `update_historical_tsi.calculate_tsi(indicators)`: the file is a copy of
   * `calculate_bsi` with the variables renamed, so it computes the same pair.
   */
  method CalculateTsi(entries: seq<Entry>) returns (r: Result<(real, real), LegacyError>)
    ensures r == Bsi(entries)
  {
    r := CalculateBsi(entries);
  }

  /** An item that gets through every check of the BSI loop. */
  predicate Clean(e: Entry) {
    e.values.Some? && HasThreshold(e.key) && e.values.value.monthly.Present? && e.values.value.weekly.Present?
  }

  lemma CleanHasNoError(e: Entry)
    ensures Clean(e) <==> ItemError(e, [Monthly, Weekly]).None?
  {
    if e.values.Some? {
      var v := e.values.value;
      assert SideValue(v, Monthly) == v.monthly && SideValue(v, Weekly) == v.weekly;
      assert Monthly in [Monthly, Weekly] && Weekly in [Monthly, Weekly];
    }
  }

  /**
   * A dict without a "monthly" key raises KeyError('monthly') before the
   * threshold table is consulted, so even an unknown indicator reports the
   * missing side; a missing "weekly" key is reported the same way once
   * "monthly" was found.
   */
  lemma MissingSideRaisedFirst(e: Entry)
    requires e.values.Some?
    ensures e.values.value.monthly.Absent? ==> Bsi([e]) == Failure(KeyError("monthly"))
    ensures e.values.value.monthly.Absent? ==> Generate([e]) == Failure(KeyError("monthly"))
    ensures !e.values.value.monthly.Absent? && e.values.value.weekly.Absent? ==> Bsi([e]) == Failure(KeyError("weekly"))
  {
    var v, es := e.values.value, [e];
    assert es[..|es| - 1] == [];
    assert [Monthly, Weekly][1..] == [Weekly];
    if v.monthly.Absent? {
      assert MissingSide(v, [Monthly, Weekly]) == Some(Monthly);
      assert ItemError(e, [Monthly, Weekly]) == Some(KeyError("monthly"));
      assert BsiSums(es) == Failure(KeyError("monthly"));
      assert MissingSide(v, [Monthly]) == Some(Monthly);
      assert ItemError(e, [Monthly]) == Some(KeyError("monthly"));
      assert Normalize(es, Monthly) == Failure(KeyError("monthly"));
    } else if v.weekly.Absent? {
      assert MissingSide(v, [Weekly]) == Some(Weekly);
      assert MissingSide(v, [Monthly, Weekly]) == Some(Weekly);
      assert ItemError(e, [Monthly, Weekly]) == Some(KeyError("weekly"));
      assert BsiSums(es) == Failure(KeyError("weekly"));
    }
  }

  /** The BSI scripts succeed exactly when every item has a dict, a threshold and two numbers. */
  lemma {:induction false} BsiSucceedsIff(entries: seq<Entry>)
    ensures Bsi(entries).Success? <==> forall i :: 0 <= i < |entries| ==> Clean(entries[i])
  {
    if |entries| > 0 {
      var n := |entries|;
      var p := entries[..n - 1];
      BsiSucceedsIff(p);
      CleanHasNoError(entries[n - 1]);
      if BsiSums(p).Failure? {
        var i :| 0 <= i < |p| && !Clean(p[i]);
        assert entries[i] == p[i];
      }
    }
  }

  /** A time point of historical_data.json: its `indicators` field and its `compositeMetrics` field. */
  datatype TimePoint = TimePoint(indicators: Field<seq<Entry>>, composite: Field<map<string, (real, real)>>)

  /**
   * One pass of the update scripts' main loop: a point without an `indicators`
   * key is left alone; a `null` one makes `calculate_bsi` iterate over None, a
   * TypeError. Otherwise the pair is written under 'tsi', creating
   * compositeMetrics when the key is missing; item assignment on a `null`
   * compositeMetrics is a TypeError. An exception ends the script.
   */
  function UpdateTimePoint(tp: TimePoint): (r: Result<TimePoint, LegacyError>)
    ensures tp.indicators.Absent? ==> r == Success(tp)
    ensures tp.indicators.Null? ==> r == Failure(TypeError("indicators"))
    ensures tp.indicators.Present? ==>
              (r.Success? <==> Bsi(tp.indicators.value).Success? && !tp.composite.Null?)
    ensures tp.indicators.Present? && Bsi(tp.indicators.value).Failure? ==> r == Failure(Bsi(tp.indicators.value).error)
    ensures tp.indicators.Present? && Bsi(tp.indicators.value).Success? && tp.composite.Null? ==>
              r == Failure(TypeError("compositeMetrics"))
    ensures r.Success? && tp.indicators.Present? ==>
              r.value.indicators == tp.indicators && r.value.composite.Present?
              && "tsi" in r.value.composite.value
              && Bsi(tp.indicators.value) == Success(r.value.composite.value["tsi"])
              && (forall k :: k in r.value.composite.value && k != "tsi"
                    ==> tp.composite.Present? && k in tp.composite.value
                        && r.value.composite.value[k] == tp.composite.value[k])
              && (tp.composite.Present? ==> forall k :: k in tp.composite.value ==> k in r.value.composite.value)
  {
    match tp.indicators
    case Absent => Success(tp)
    case Null => Failure(TypeError("indicators"))
    case Present(entries) =>
      match Bsi(entries)
      case Failure(err) => Failure(err)
      case Success(b) =>
        match tp.composite
        case Absent => Success(TimePoint(tp.indicators, Present(map["tsi" := b])))
        case Null => Failure(TypeError("compositeMetrics"))
        case Present(m) => Success(TimePoint(tp.indicators, Present(m["tsi" := b])))
  }

  // ---- generate_historical_metrics.calculate_composite_metrics ----

  /** `{'cos': {...}, 'tsi': {...}}`: the script files BSI under the key 'tsi'. */
  datatype LegacyScores = LegacyScores(cosMonthly: real, cosWeekly: real, tsiMonthly: real, tsiWeekly: real)

  /** The normalised dict one side's loop fills, or the first exception it raises. */
  function Normalize(entries: seq<Entry>, side: Side): (r: Result<map<string, real>, LegacyError>)
    ensures r.Success? ==> forall k :: k in r.value ==> HasThreshold(k)
  {
    if |entries| == 0 then Success(map[])
    else
      var e := entries[|entries| - 1];
      match Normalize(entries[..|entries| - 1], side)
      case Failure(err) => Failure(err)
      case Success(m) =>
        if ItemError(e, [side]).Some? then Failure(ItemError(e, [side]).value)
        else
          assert side in [side];
          Success(m[e.key := CosNorm(e.key, SideValue(e.values.value, side).value)])
  }

  /** One key's term of the COS sum: its weight times its normalised value. */
  function Weighted(key: string, v: real): real
    requires HasThreshold(key)
  {
    Weight(key) * v
  }

  /** `for key in weights: cos += weights[key] * normalized[key]` over a prefix of the weight order. */
  function CosOver(norm: map<string, real>, keys: seq<string>): Result<real, LegacyError>
    requires forall k :: k in norm ==> HasThreshold(k)
  {
    if |keys| == 0 then Success(0.0)
    else
      var k := keys[|keys| - 1];
      match CosOver(norm, keys[..|keys| - 1])
      case Failure(err) => Failure(err)
      case Success(c) =>
        if k !in norm then Failure(KeyError(k)) else Success(c + Weighted(k, norm[k]))
  }

  /** `generate_historical_metrics.calculate_composite_metrics(indicators)` as a specification. */
  function Generate(entries: seq<Entry>): (r: Result<LegacyScores, LegacyError>)
    ensures r.Success? ==> 0.0 <= r.value.tsiMonthly <= 100.0 && 0.0 <= r.value.tsiWeekly <= 100.0
  {
    match Normalize(entries, Monthly)
    case Failure(err) => Failure(err)
    case Success(mn) =>
      match CosOver(mn, WeightOrder)
      case Failure(err) => Failure(err)
      case Success(cm) =>
        match Normalize(entries, Weekly)
        case Failure(err) => Failure(err)
        case Success(wn) =>
          match CosOver(wn, WeightOrder)
          case Failure(err) => Failure(err)
          case Success(cw) =>
            match Bsi(entries)
            case Failure(err) => Failure(err)
            case Success(b) => Success(LegacyScores(cm, cw, b.0, b.1))
  }

  /** One side's normalising loop. */
  method NormalizeLoop(entries: seq<Entry>, side: Side) returns (r: Result<map<string, real>, LegacyError>)
    ensures r == Normalize(entries, side)
  {
    var norm: map<string, real> := map[];
    for i := 0 to |entries|
      invariant Normalize(entries[..i], side) == Success(norm)
    {
      assert entries[..i + 1][..i] == entries[..i];
      var e := entries[i];
      var err := ItemError(e, [side]);
      if err.Some? {
        NormalizeFailureSticks(entries, side, i + 1, |entries|);
        assert entries[..|entries|] == entries;
        return Failure(err.value);
      }
      assert side in [side];
      norm := norm[e.key := CosNorm(e.key, SideValue(e.values.value, side).value)];
    }
    assert entries[..|entries|] == entries;
    r := Success(norm);
  }

  lemma {:induction false} NormalizeFailureSticks(entries: seq<Entry>, side: Side, k: nat, j: nat)
    requires k <= j <= |entries| && Normalize(entries[..k], side).Failure?
    ensures Normalize(entries[..j], side) == Normalize(entries[..k], side)
    decreases j
  {
    if j > k {
      NormalizeFailureSticks(entries, side, k, j - 1);
      assert entries[..j][..j - 1] == entries[..j - 1];
    }
  }

  /** One side's weighted sum over the weight dict. */
  method CosLoop(norm: map<string, real>) returns (r: Result<real, LegacyError>)
    requires forall k :: k in norm ==> HasThreshold(k)
    ensures r == CosOver(norm, WeightOrder)
  {
    var cos := 0.0;
    for i := 0 to |WeightOrder|
      invariant CosOver(norm, WeightOrder[..i]) == Success(cos)
    {
      var k := WeightOrder[i];
      CosOverSnoc(norm, WeightOrder, i);
      if k !in norm {
        CosFailureSticks(norm, WeightOrder, i + 1, |WeightOrder|);
        assert WeightOrder[..|WeightOrder|] == WeightOrder;
        return Failure(KeyError(k));
      }
      cos := cos + Weighted(k, norm[k]);
    }
    assert WeightOrder[..|WeightOrder|] == WeightOrder;
    r := Success(cos);
  }

  /** Extending the key prefix by one key adds that key's weighted value, or fails on a missing key. */
  lemma CosOverSnoc(norm: map<string, real>, keys: seq<string>, n: nat)
    requires forall x :: x in norm ==> HasThreshold(x)
    requires n < |keys|
    ensures CosOver(norm, keys[..n]).Failure? ==> CosOver(norm, keys[..n + 1]) == CosOver(norm, keys[..n])
    ensures CosOver(norm, keys[..n]).Success? && keys[n] !in norm ==> CosOver(norm, keys[..n + 1]) == Failure(KeyError(keys[n]))
    ensures CosOver(norm, keys[..n]).Success? && keys[n] in norm ==>
      CosOver(norm, keys[..n + 1]) == Success(CosOver(norm, keys[..n]).value + Weighted(keys[n], norm[keys[n]]))
  {
    var ext := keys[..n + 1];
    assert ext[..|ext| - 1] == keys[..n];
    assert ext[|ext| - 1] == keys[n];
  }

  lemma {:induction false} CosFailureSticks(norm: map<string, real>, keys: seq<string>, k: nat, j: nat)
    requires forall x :: x in norm ==> HasThreshold(x)
    requires k <= j <= |keys| && CosOver(norm, keys[..k]).Failure?
    ensures CosOver(norm, keys[..j]) == CosOver(norm, keys[..k])
    decreases j
  {
    if j > k {
      CosFailureSticks(norm, keys, k, j - 1);
      assert keys[..j][..j - 1] == keys[..j - 1];
    }
  }

  /** `generate_historical_metrics.calculate_composite_metrics(indicators)`: the five loops in order. */
  method GenerateCompositeMetrics(entries: seq<Entry>) returns (r: Result<LegacyScores, LegacyError>)
    ensures r == Generate(entries)
  {
    var mn := NormalizeLoop(entries, Monthly);
    if mn.Failure? { return Failure(mn.error); }
    var cm := CosLoop(mn.value);
    if cm.Failure? { return Failure(cm.error); }
    var wn := NormalizeLoop(entries, Weekly);
    if wn.Failure? { return Failure(wn.error); }
    var cw := CosLoop(wn.value);
    if cw.Failure? { return Failure(cw.error); }
    var b := CalculateBsi(entries);
    if b.Failure? { return Failure(b.error); }
    r := Success(LegacyScores(cm.value, cw.value, b.value.0, b.value.1));
  }

  // ---- properties ----

  /**
   * One pass of generate_historical_metrics.py's main loop: a point without an
   * `indicators` key is left alone; a `null` one makes the scorer iterate over
   * None, a TypeError. Otherwise compositeMetrics is replaced wholesale by
   * `{'cos': ..., 'tsi': ...}`, whatever it held before, `null` included.
   */
  function GenerateTimePoint(tp: TimePoint): (r: Result<TimePoint, LegacyError>)
    ensures tp.indicators.Absent? ==> r == Success(tp)
    ensures tp.indicators.Null? ==> r == Failure(TypeError("indicators"))
    ensures tp.indicators.Present? ==> (r.Success? <==> Generate(tp.indicators.value).Success?)
    ensures tp.indicators.Present? && Generate(tp.indicators.value).Failure? ==> r == Failure(Generate(tp.indicators.value).error)
    ensures r.Success? && tp.indicators.Present? ==>
              var g := Generate(tp.indicators.value).value;
              r.value.indicators == tp.indicators && r.value.composite.Present?
              && (forall k :: k in r.value.composite.value <==> k == "cos" || k == "tsi")
              && r.value.composite.value["cos"] == (g.cosMonthly, g.cosWeekly)
              && Bsi(tp.indicators.value) == Success(r.value.composite.value["tsi"])
  {
    match tp.indicators
    case Absent => Success(tp)
    case Null => Failure(TypeError("indicators"))
    case Present(entries) =>
      match Generate(entries)
      case Failure(err) => Failure(err)
      case Success(g) =>
        GeneratedTsiIsBsi(entries);
        Success(TimePoint(tp.indicators, Present(map["cos" := (g.cosMonthly, g.cosWeekly), "tsi" := (g.tsiMonthly, g.tsiWeekly)])))
  }

  /**
   * The two kinds of script treat other composite keys differently: the update
   * scripts keep them, the generator drops them.
   */
  lemma GenerateDropsOtherKeys(tp: TimePoint, k: string)
    requires tp.indicators.Present? && tp.composite.Present? && k in tp.composite.value && k != "cos" && k != "tsi"
    ensures UpdateTimePoint(tp).Success? ==> k in UpdateTimePoint(tp).value.composite.value
    ensures GenerateTimePoint(tp).Success? ==> k !in GenerateTimePoint(tp).value.composite.value
  {
  }

  /** The 'tsi' pair of the generator is what `calculate_bsi` and `calculate_tsi` compute on the same items. */
  lemma GeneratedTsiIsBsi(entries: seq<Entry>)
    requires Generate(entries).Success?
    ensures Bsi(entries) == Success((Generate(entries).value.tsiMonthly, Generate(entries).value.tsiWeekly))
  {
  }

  /** The generator raises unless every item has a dict, a threshold and two numbers. */
  lemma GenerateNeedsCleanItems(entries: seq<Entry>)
    requires Generate(entries).Success?
    ensures forall i :: 0 <= i < |entries| ==> Clean(entries[i])
  {
    BsiSucceedsIff(entries);
  }

  /** The normalised dict holds exactly the items' keys once the loop gets through. */
  lemma {:induction false} NormalizeKeys(entries: seq<Entry>, side: Side)
    requires Normalize(entries, side).Success?
    ensures forall k :: k in Normalize(entries, side).value <==> exists i :: 0 <= i < |entries| && entries[i].key == k
  {
    if |entries| > 0 {
      var n := |entries|;
      var p := entries[..n - 1];
      NormalizeKeys(p, side);
      forall k | (exists i :: 0 <= i < n && entries[i].key == k)
        ensures k in Normalize(entries, side).value
      {
        var i :| 0 <= i < n && entries[i].key == k;
        if i < n - 1 {
          assert p[i].key == k;
        }
      }
      forall k | k in Normalize(entries, side).value
        ensures exists i :: 0 <= i < n && entries[i].key == k
      {
        if k != entries[n - 1].key {
          var i :| 0 <= i < |p| && p[i].key == k;
          assert entries[i].key == k;
        }
      }
    }
  }

  /** The weighted COS sum fails exactly when some weight key is missing from the normalised dict. */
  lemma {:induction false} CosOverSucceedsIff(norm: map<string, real>, keys: seq<string>)
    requires forall k :: k in norm ==> HasThreshold(k)
    ensures CosOver(norm, keys).Success? <==> forall i :: 0 <= i < |keys| ==> keys[i] in norm
  {
    if |keys| > 0 {
      var p := keys[..|keys| - 1];
      CosOverSucceedsIff(norm, p);
      if CosOver(norm, p).Failure? {
        var i :| 0 <= i < |p| && p[i] !in norm;
        assert keys[i] == p[i];
      }
    }
  }

  /** An item with a dict, a threshold and a number on `side` passes that side's checks. */
  lemma {:induction false} NormalizeSucceeds(entries: seq<Entry>, side: Side)
    requires forall i :: 0 <= i < |entries| ==> Clean(entries[i])
    ensures Normalize(entries, side).Success?
  {
    if |entries| > 0 {
      var n := |entries|;
      assert forall i :: 0 <= i < n - 1 ==> entries[..n - 1][i] == entries[i];
      NormalizeSucceeds(entries[..n - 1], side);
      var v := entries[n - 1].values.value;
      assert SideValue(v, side).Present?;
    }
  }

  /**
   * The generator succeeds exactly when every item has a dict, a threshold and
   * two numbers, and every one of the seven weight keys is among the items.
   */
  lemma GenerateSucceedsIff(entries: seq<Entry>)
    ensures Generate(entries).Success?
            <==> (forall i :: 0 <= i < |entries| ==> Clean(entries[i]))
                 && forall j :: 0 <= j < |WeightOrder| ==> exists i :: 0 <= i < |entries| && entries[i].key == WeightOrder[j]
  {
    if Generate(entries).Success? {
      GenerateNeedsCleanItems(entries);
      var mn := Normalize(entries, Monthly).value;
      NormalizeKeys(entries, Monthly);
      CosOverSucceedsIff(mn, WeightOrder);
    } else if forall i :: 0 <= i < |entries| ==> Clean(entries[i]) {
      NormalizeSucceeds(entries, Monthly);
      NormalizeSucceeds(entries, Weekly);
      var mn, wn := Normalize(entries, Monthly).value, Normalize(entries, Weekly).value;
      NormalizeKeys(entries, Monthly);
      NormalizeKeys(entries, Weekly);
      CosOverSucceedsIff(mn, WeightOrder);
      CosOverSucceedsIff(wn, WeightOrder);
      BsiSucceedsIff(entries);
    }
  }

  /**
   * COS is a plain weighted sum with no clamp: when every weighted indicator
   * reads twice its threshold, each normalises to 200 and so does COS.
   */
  lemma CosIsUnclamped(norm: map<string, real>)
    requires forall k :: k in norm ==> HasThreshold(k)
    requires forall i :: 0 <= i < |WeightOrder| ==> WeightOrder[i] in norm && norm[WeightOrder[i]] == 200.0
    ensures CosOver(norm, WeightOrder) == Success(200.0)
  {
    CosUniform(norm, WeightOrder);
    WeightOrderSumsToOne();
  }

  /** The sum of the weights of `keys`. */
  ghost function WeightSum(keys: seq<string>): real
    requires forall i :: 0 <= i < |keys| ==> HasThreshold(keys[i])
  {
    if |keys| == 0 then 0.0 else WeightSum(keys[..|keys| - 1]) + Weight(keys[|keys| - 1])
  }

  /** When every key of `keys` normalises to 200, the weighted sum is 200 times the keys' total weight. */
  lemma {:induction false} CosUniform(norm: map<string, real>, keys: seq<string>)
    requires forall k :: k in norm ==> HasThreshold(k)
    requires forall i :: 0 <= i < |keys| ==> keys[i] in norm && norm[keys[i]] == 200.0
    ensures forall i :: 0 <= i < |keys| ==> HasThreshold(keys[i])
    ensures CosOver(norm, keys) == Success(200.0 * WeightSum(keys))
  {
    if |keys| > 0 {
      var init := keys[..|keys| - 1];
      assert forall i :: 0 <= i < |init| ==> init[i] == keys[i];
      CosUniform(norm, init);
      assert keys[|keys| - 1] in norm;
    }
  }

  /** The weights of the seven weighted indicators add up to one. */
  lemma WeightOrderSumsToOne()
    ensures forall i :: 0 <= i < |WeightOrder| ==> HasThreshold(WeightOrder[i])
    ensures WeightSum(WeightOrder) == 1.0
  {
    Config.CompositeTablesCoverIndicators();
    Config.WeightsSumToOne();
    var s: seq<string> := [];
    WeightSumSnoc(s, "stochRsi");
    s := s + ["stochRsi"];
    WeightSumSnoc(s, "crsi");
    s := s + ["crsi"];
    WeightSumSnoc(s, "mfi");
    s := s + ["mfi"];
    WeightSumSnoc(s, "rsi");
    s := s + ["rsi"];
    WeightSumSnoc(s, "williamsR");
    s := s + ["williamsR"];
    WeightSumSnoc(s, "rvi");
    s := s + ["rvi"];
    WeightSumSnoc(s, "adaptiveRsi");
    s := s + ["adaptiveRsi"];
    assert s == WeightOrder;
  }

  lemma WeightSumSnoc(keys: seq<string>, k: string)
    requires forall i :: 0 <= i < |keys| ==> HasThreshold(keys[i])
    requires HasThreshold(k)
    ensures WeightSum(keys + [k]) == WeightSum(keys) + Weight(k)
  {
    assert (keys + [k])[..|keys|] == keys;
  }

  /** Below its threshold Williams %R normalises to 100; above it, to less than 100 and falling towards 0. */
  lemma WilliamsCosNorm(v: real)
    ensures HasThreshold("williamsR")
    ensures v <= -20.0 ==> CosNorm("williamsR", v) == 100.0
    ensures -20.0 < v <= 0.0 ==> 0.0 <= CosNorm("williamsR", v) < 100.0
  {
    assert Threshold("williamsR") == -20.0;
  }
}
