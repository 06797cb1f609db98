/**
 * `calculate_price_outcomes` in backend/services/outcome_service.py: what the
 * price did 1, 6 and 12 calendar months after a base day. A horizon later than
 * today, or one whose price cannot be fetched, is `unknown`; a fetched price is
 * compared with the base strictly and reported as a rounded percentage change.
 * Each fetch goes through `fetch_and_store_daily_ohlcv`, so it also writes the
 * store.
 */
module OutcomeService {
  import opened Wrappers
  import opened Records
  import opened Calendar
  import DbUtils
  import DataSources

  /** The months offsets of the '1M', '6M' and '12M' keys, in the order the loop visits them. */
  const Horizons: seq<nat> := [1, 6, 12]

  // ---- Python's round on exact values ----

  /** `round(x, 1)` and `round(x, 2)` scale by these before rounding to an integer. */
  const OneDecimal: real := 10.0
  const TwoDecimals: real := 100.0

  /** The integer nearest to y, ties to the even one. */
  function RoundHalfEven(y: real): (n: int)
    ensures -0.5 <= n as real - y <= 0.5
    ensures (n as real - y == 0.5 || n as real - y == -0.5) ==> n % 2 == 0
    ensures y >= 0.0 ==> n >= 0
  {
    var f := y.Floor;
    var frac := y - f as real;
    if frac < 0.5 then f
    else if frac > 0.5 then f + 1
    else if f % 2 == 0 then f
    else f + 1
  }

  /** `round(x, places)` with scale = 10^places: the nearest multiple of 1/scale, ties to even. */
  function Round(x: real, scale: real): real
    requires scale >= 1.0
  {
    RoundHalfEven(x * scale) as real / scale
  }

  /** A rounded value is a whole number of 1/scale steps, at most half a step from x, and keeps x's sign. */
  lemma RoundNearest(x: real, scale: real)
    requires scale >= 1.0
    ensures Round(x, scale) * scale == RoundHalfEven(x * scale) as real
    ensures -0.5 <= Round(x, scale) * scale - x * scale <= 0.5
    ensures x >= 0.0 ==> Round(x, scale) >= 0.0
  {
    var n := RoundHalfEven(x * scale) as real;
    assert n / scale * scale == n;
  }

  // ---- the specification ----

  /** `base_price is None or pd.isna(base_price) or base_price == 0` fails; None stands for both None and NaN. */
  predicate UsableBase(basePrice: Option<real>) {
    basePrice.Some? && basePrice.value != 0.0
  }

  /** The horizon day: `base + pd.DateOffset(months=months)`, then midnight. */
  function HorizonDay(base: Day, months: nat): Day
    requires InPythonRange(base)
  {
    ToDay(AddMonths(FromDay(base), months))
  }

  /** The outcome for a future close `fp` against a nonzero base price. */
  function Judge(base: real, fp: real): (o: Outcome)
    requires base != 0.0
    ensures o.direction != Unknown
  {
    var direction := if fp > base then Up else if fp < base then Down else Flat;
    Outcome(direction, Round(Abs((fp - base) / base * 100.0), OneDecimal), Round(fp, TwoDecimals))
  }

  /** One horizon: unknown beyond today or when no source has the day. */
  function HorizonOutcome(src: DataSources.Sources, base: Day, basePrice: real, months: nat, now: int): Outcome
    requires InPythonRange(base) && InPythonRange(DayOf(now)) && basePrice != 0.0
  {
    var h := HorizonDay(base, months);
    if h > DayOf(now) then UnknownOutcome
    else
      HorizonInRange(base, months, now);
      match DataSources.FetchOn(src, h, now)
      case Success(v) => Judge(basePrice, v.close)
      case Failure(_) => UnknownOutcome
  }

  /** `calculate_price_outcomes(base_date, base_price)` as a specification. */
  function PriceOutcomes(src: DataSources.Sources, baseTs: int, basePrice: Option<real>, now: int): (o: Outcomes)
    requires InPythonRange(DayOf(baseTs)) && InPythonRange(DayOf(now))
    ensures !UsableBase(basePrice) ==> o == Outcomes(UnknownOutcome, UnknownOutcome, UnknownOutcome)
  {
    if !UsableBase(basePrice) then Outcomes(UnknownOutcome, UnknownOutcome, UnknownOutcome)
    else
      var base, p := DayOf(baseTs), basePrice.value;
      Outcomes(HorizonOutcome(src, base, p, 1, now), HorizonOutcome(src, base, p, 6, now), HorizonOutcome(src, base, p, 12, now))
  }

  /** The outcomes the loop has produced after visiting the horizons `ks`. */
  function OutcomesOf(src: DataSources.Sources, base: Day, basePrice: real, ks: seq<nat>, now: int): (r: seq<Outcome>)
    requires InPythonRange(base) && InPythonRange(DayOf(now)) && basePrice != 0.0
    ensures |r| == |ks|
    ensures forall i :: 0 <= i < |ks| ==> r[i] == HorizonOutcome(src, base, basePrice, ks[i], now)
  {
    if ks == [] then []
    else OutcomesOf(src, base, basePrice, ks[..|ks| - 1], now) + [HorizonOutcome(src, base, basePrice, ks[|ks| - 1], now)]
  }

  /** The store after one horizon: a fetch is made, and a found record written, only up to today. */
  function StoreStep(t: map<Day, DbUtils.DailyRow>, src: DataSources.Sources, base: Day, months: nat, now: int, writeOk: bool): map<Day, DbUtils.DailyRow>
    requires InPythonRange(base) && InPythonRange(DayOf(now))
  {
    var h := HorizonDay(base, months);
    if h > DayOf(now) then t
    else
      HorizonInRange(base, months, now);
      match DataSources.FetchOn(src, h, now)
      case Success(v) => DbUtils.Upsert(t, h, DbUtils.DailyRowOf(h, v, now), writeOk)
      case Failure(_) => t
  }

  /** The store after the loop has visited the horizons `ks`. */
  function StoredAfter(t: map<Day, DbUtils.DailyRow>, src: DataSources.Sources, base: Day, ks: seq<nat>, now: int, writeOk: bool): map<Day, DbUtils.DailyRow>
    requires InPythonRange(base) && InPythonRange(DayOf(now))
  {
    if ks == [] then t
    else StoreStep(StoredAfter(t, src, base, ks[..|ks| - 1], now, writeOk), src, base, ks[|ks| - 1], now, writeOk)
  }

  // ---- the loop ----

  /** `calculate_price_outcomes`: the loop over ('1M', 1), ('6M', 6), ('12M', 12). */
  method CalculatePriceOutcomes(db: DbUtils.Database, src: DataSources.Sources, baseTs: int, basePrice: Option<real>, now: int, writeOk: bool)
    returns (o: Outcomes)
    requires db.Valid() && InPythonRange(DayOf(baseTs)) && InPythonRange(DayOf(now))
    modifies db
    ensures db.Valid()
    ensures o == PriceOutcomes(src, baseTs, basePrice, now)
    ensures db.dailyOhlcv == if UsableBase(basePrice) then StoredAfter(old(db.dailyOhlcv), src, DayOf(baseTs), Horizons, now, writeOk) else old(db.dailyOhlcv)
    ensures db.calculatedIndicators == old(db.calculatedIndicators)
  {
    if !UsableBase(basePrice) {
      return Outcomes(UnknownOutcome, UnknownOutcome, UnknownOutcome);
    }
    var outs := HorizonLoop(db, src, DayOf(baseTs), basePrice.value, Horizons, now, writeOk);
    o := Outcomes(outs[0], outs[1], outs[2]);
  }

  /** The `for` loop itself, over any list of month offsets. */
  method HorizonLoop(db: DbUtils.Database, src: DataSources.Sources, base: Day, basePrice: real, ks: seq<nat>, now: int, writeOk: bool)
    returns (outs: seq<Outcome>)
    requires db.Valid() && InPythonRange(base) && InPythonRange(DayOf(now)) && basePrice != 0.0
    modifies db
    ensures db.Valid()
    ensures outs == OutcomesOf(src, base, basePrice, ks, now)
    ensures db.dailyOhlcv == StoredAfter(old(db.dailyOhlcv), src, base, ks, now, writeOk)
    ensures db.calculatedIndicators == old(db.calculatedIndicators)
  {
    outs := [];
    for i := 0 to |ks|
      invariant db.Valid()
      invariant db.calculatedIndicators == old(db.calculatedIndicators)
      invariant outs == OutcomesOf(src, base, basePrice, ks[..i], now)
      invariant db.dailyOhlcv == StoredAfter(old(db.dailyOhlcv), src, base, ks[..i], now, writeOk)
    {
      assert ks[..i + 1][..i] == ks[..i];
      var outcome := HorizonStep(db, src, base, basePrice, ks[i], now, writeOk);
      outs := outs + [outcome];
    }
    assert ks[..|ks|] == ks;
  }

  /** One pass of the loop body: skip a future horizon, otherwise fetch (and store) its day. */
  method HorizonStep(db: DbUtils.Database, src: DataSources.Sources, base: Day, basePrice: real, months: nat, now: int, writeOk: bool)
    returns (o: Outcome)
    requires db.Valid() && InPythonRange(base) && InPythonRange(DayOf(now)) && basePrice != 0.0
    modifies db
    ensures db.Valid()
    ensures o == HorizonOutcome(src, base, basePrice, months, now)
    ensures db.dailyOhlcv == StoreStep(old(db.dailyOhlcv), src, base, months, now, writeOk)
    ensures db.calculatedIndicators == old(db.calculatedIndicators)
  {
    var h := HorizonDay(base, months);
    if h > DayOf(now) {
      return UnknownOutcome;
    }
    HorizonInRange(base, months, now);
    DayOfBounds(DayStart(h), h);
    var r := DataSources.FetchAndStoreDailyOhlcv(db, src, DayStart(h), now, writeOk);
    assert r == DataSources.FetchOn(src, h, now);
    if r.Success? {
      o := Judge(basePrice, r.value.close);
    } else {
      o := UnknownOutcome;
    }
  }

  // ---- properties ----

  /** A horizon no later than today lies inside the calendar, so its day can be fetched. */
  lemma HorizonInRange(base: Day, months: nat, now: int)
    requires InPythonRange(base) && InPythonRange(DayOf(now))
    ensures HorizonDay(base, months) >= base
    ensures HorizonDay(base, months) <= DayOf(now) ==> InPythonRange(HorizonDay(base, months))
  {
    var d := FromDay(base);
    if months == 0 {
      DivModUnique(d.year * 12 + (d.month - 1), 12, d.year, d.month - 1);
      assert AddMonths(d, 0) == d;
    } else {
      AddMonthsLater(d, months);
    }
  }

  /** The three horizons are strictly later than the base and strictly ordered. */
  lemma HorizonsAscending(base: Day)
    requires InPythonRange(base)
    ensures base < HorizonDay(base, 1) < HorizonDay(base, 6) < HorizonDay(base, 12)
  {
    var d := FromDay(base);
    AddMonthsLater(d, 1);
    var r1, r6, r12 := AddMonths(d, 1), AddMonths(d, 6), AddMonths(d, 12);
    assert Before(r1, r6);
    assert Before(r6, r12);
    ToDayOrder(r1, r6);
    ToDayOrder(r6, r12);
  }

  /** An outcome is known exactly when its horizon is not in the future and some source has that day. */
  lemma KnownExactly(src: DataSources.Sources, base: Day, basePrice: real, months: nat, now: int)
    requires InPythonRange(base) && InPythonRange(DayOf(now)) && basePrice != 0.0
    ensures var h := HorizonDay(base, months);
            HorizonOutcome(src, base, basePrice, months, now).direction != Unknown
            <==> h <= DayOf(now) && InPythonRange(h) && DataSources.FetchOn(src, h, now).Success?
    ensures HorizonOutcome(src, base, basePrice, months, now).direction == Unknown
            ==> HorizonOutcome(src, base, basePrice, months, now) == UnknownOutcome
  {
    HorizonInRange(base, months, now);
  }

  /**
   * A judged outcome compares strictly: up, down or flat as the close is above,
   * below or equal to the base; the percentage is the absolute change to within
   * 0.05 and the price the close to within 0.005.
   */
  lemma JudgeMeaning(base: real, fp: real)
    requires base != 0.0
    ensures var o := Judge(base, fp);
            (o.direction == Up <==> fp > base)
            && (o.direction == Down <==> fp < base)
            && (o.direction == Flat <==> fp == base)
            && o.percentage >= 0.0
            && -0.05 <= o.percentage - Abs((fp - base) / base * 100.0) <= 0.05
            && -0.005 <= o.price - fp <= 0.005
            && (fp == base ==> o.percentage == 0.0)
  {
    var o := Judge(base, fp);
    var x := Abs((fp - base) / base * 100.0);
    RoundNearest(x, OneDecimal);
    RoundNearest(fp, TwoDecimals);
    assert -0.5 <= o.percentage * 10.0 - x * 10.0 <= 0.5;
    assert -0.5 <= o.price * 100.0 - fp * 100.0 <= 0.5;
    if fp == base {
      assert x == 0.0;
      assert RoundHalfEven(0.0) == 0;
    }
  }

  /** No row is written for a day after today: future horizons make no fetch. */
  lemma {:induction false} StoreNeverBeyondToday(t: map<Day, DbUtils.DailyRow>, src: DataSources.Sources, base: Day, ks: seq<nat>, now: int, writeOk: bool, d: Day)
    requires InPythonRange(base) && InPythonRange(DayOf(now))
    requires d > DayOf(now)
    ensures var s := StoredAfter(t, src, base, ks, now, writeOk);
            (d in s <==> d in t) && (d in t ==> s[d] == t[d])
  {
    if ks != [] {
      var p := ks[..|ks| - 1];
      StoreNeverBeyondToday(t, src, base, p, now, writeOk, d);
    }
  }

  /** Every row the loop writes is for one of the horizon days and holds what the sources give for it. */
  lemma {:induction false} StoreOnlyHorizons(t: map<Day, DbUtils.DailyRow>, src: DataSources.Sources, base: Day, ks: seq<nat>, now: int, writeOk: bool, d: Day)
    requires InPythonRange(base) && InPythonRange(DayOf(now))
    requires forall i :: 0 <= i < |ks| ==> HorizonDay(base, ks[i]) != d
    ensures var s := StoredAfter(t, src, base, ks, now, writeOk);
            (d in s <==> d in t) && (d in t ==> s[d] == t[d])
  {
    if ks != [] {
      var p := ks[..|ks| - 1];
      StoreOnlyHorizons(t, src, base, p, now, writeOk, d);
    }
  }

  /** With a usable base the three keys are the three horizons' outcomes in order. */
  lemma OutcomesAreHorizons(src: DataSources.Sources, baseTs: int, basePrice: Option<real>, now: int)
    requires InPythonRange(DayOf(baseTs)) && InPythonRange(DayOf(now)) && UsableBase(basePrice)
    ensures var o, outs := PriceOutcomes(src, baseTs, basePrice, now), OutcomesOf(src, DayOf(baseTs), basePrice.value, Horizons, now);
            o == Outcomes(outs[0], outs[1], outs[2])
  {
  }
}
