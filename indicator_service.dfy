/**
 * `get_indicator_data` in backend/services/indicator_service.py: answer a
 * request for one date from the `calculated_indicators` cache when it is
 * fresh, otherwise load two years of daily bars, resample them to weeks and
 * months, compute the indicators, the composite scores and the outcomes, and
 * store the snapshot before returning it. With fewer than 60 daily bars only the
 * price and the outcomes are reported.
 */
module IndicatorService {
  import opened Wrappers
  import opened Records
  import opened Calendar
  import DbUtils
  import DataSources
  import IndicatorCalculator
  import CompositeMetricsService
  import OutcomeService

  type Entry = CompositeMetricsService.Entry
  type DailyBar = IndicatorCalculator.DailyBar

  /** How many years of daily bars a calculation loads. */
  const HistoryYears: nat := 2
  /** Fewer daily bars than this skips the indicators. */
  const MinDailyRows: nat := 60
  /** A snapshot of today is fresh for this many seconds. */
  const FreshSeconds: int := 3600

  /** Where a successful response came from: its `description`. */
  datatype Origin = FromCache | Calculated | ShortHistory(found: nat)

  /**
   * The response dict. `Data` is status 200; `Error` is status 500, with the
   * number of daily bars found and the fetch error for the day.
   */
  datatype Response =
    | Data(lastUpdate: int, indicators: seq<Entry>, composite: CompositeMetrics, price: real,
           outcomes: Outcomes, name: string, isCustomDate: bool, origin: Origin)
    | Error(found: nat, lastError: string)

  /** `http_status_code` */
  function StatusCode(r: Response): int {
    if r.Error? then 500 else 200
  }

  /** `name`: the ISO date and whether it is today. */
  function Name(day: Day, isToday: bool): (s: string)
    requires InPythonRange(day)
  {
    DbUtils.DayKey(day) + (if isToday then " (Today)" else " (Historical)")
  }

  // ---- the cache ----

  /** `cached_data and (not is_today or (cached_data.get('calculated_at') and time.time() - calculated_at < 3600))`; a zero timestamp is falsy. */
  predicate CacheHit(cached: Option<DbUtils.IndicatorRow>, isToday: bool, now: int) {
    cached.Some? && (!isToday || (cached.value.calculatedAt != 0 && now - cached.value.calculatedAt < FreshSeconds))
  }

  /** `_format_db_data_for_api`: the flat row back to the nested response. */
  function FormatDbData(row: DbUtils.IndicatorRow, ts: int, isToday: bool): (r: Response)
    requires InPythonRange(DayOf(ts))
    ensures r.Data? && r.isCustomDate == !isToday && r.origin == FromCache
  {
    Data(ts,
      [CompositeMetricsService.Entry("rsi", Some(TfValues(row.rsiMonthly, row.rsiWeekly))),
       CompositeMetricsService.Entry("stochRsi", Some(TfValues(row.stochRsiMonthly, row.stochRsiWeekly))),
       CompositeMetricsService.Entry("mfi", Some(TfValues(row.mfiMonthly, row.mfiWeekly))),
       CompositeMetricsService.Entry("crsi", Some(TfValues(row.crsiMonthly, row.crsiWeekly))),
       CompositeMetricsService.Entry("williamsR", Some(TfValues(row.williamsRMonthly, row.williamsRWeekly))),
       CompositeMetricsService.Entry("rvi", Some(TfValues(row.rviMonthly, row.rviWeekly))),
       CompositeMetricsService.Entry("adaptiveRsi", Some(TfValues(row.adaptiveRsiMonthly, row.adaptiveRsiWeekly)))],
      CompositeMetrics(row.cosMonthly, row.cosWeekly, row.bsiMonthly, row.bsiWeekly),
      row.priceAtEvent,
      Outcomes(Outcome(row.outcome1mDirection, row.outcome1mPercentage, row.outcome1mPrice),
               Outcome(row.outcome6mDirection, row.outcome6mPercentage, row.outcome6mPrice),
               Outcome(row.outcome12mDirection, row.outcome12mPercentage, row.outcome12mPrice)),
      Name(DayOf(ts), isToday), !isToday, FromCache)
  }

  /** `{key: {'monthly': m.get(key), 'weekly': w.get(key)} for key in indicators_m.keys()}` */
  function Paired(m: IndicatorMap, w: IndicatorMap): seq<Entry> {
    seq(|IndicatorKeys|, i requires 0 <= i < |IndicatorKeys| =>
      CompositeMetricsService.Entry(IndicatorKeys[i], Some(TfValues(Get(m, IndicatorKeys[i]), Get(w, IndicatorKeys[i])))))
  }

  // ---- the specification ----

  /** The window the calculation loads: two years of days ending on the target day. */
  function History(daily: map<Day, DbUtils.DailyRow>, src: DataSources.Sources, ts: int, now: int): seq<DailyBar>
    requires InPythonRange(DataSources.WindowStart(ts, HistoryYears)) && InPythonRange(DayOf(ts))
  {
    DataSources.Window(daily, DataSources.FetchDay(src, now), DataSources.WindowStart(ts, HistoryYears), DayOf(ts))
  }

  /** The branch for fewer than 60 daily bars: the day's price and outcomes, or an error. */
  function ShortHistoryResponse(src: DataSources.Sources, ts: int, now: int, found: nat): (r: Response)
    requires InPythonRange(DayOf(ts)) && InPythonRange(DayOf(now))
  {
    var isToday := DayOf(ts) == DayOf(now);
    match DataSources.Fetch(src, ts, now)
    case Failure(e) => Error(found, e)
    case Success(v) =>
      Data(ts, Paired(map[], map[]), ZeroComposite, v.close,
           OutcomeService.PriceOutcomes(src, ts, Some(v.close), now), Name(DayOf(ts), isToday), !isToday, ShortHistory(found))
  }

  /** The monthly and weekly indicator maps of a window of daily bars. */
  function MonthlyIndicators(rows: seq<DailyBar>): IndicatorMap
    requires IndicatorCalculator.InRange(rows)
  {
    IndicatorCalculator.Indicators(IndicatorCalculator.BarsOf(IndicatorCalculator.Resample(rows, "ME")), "monthly")
  }

  function WeeklyIndicators(rows: seq<DailyBar>): IndicatorMap
    requires IndicatorCalculator.InRange(rows)
  {
    IndicatorCalculator.Indicators(IndicatorCalculator.BarsOf(IndicatorCalculator.Resample(rows, "W-MON")), "weekly")
  }

  /** `daily_df['close'].iloc[-1]` */
  function LastClose(rows: seq<DailyBar>): real
    requires |rows| > 0
  {
    rows[|rows| - 1].bar.close
  }

  /** The full calculation on a window of at least 60 daily bars. */
  function FullResponse(rows: seq<DailyBar>, src: DataSources.Sources, ts: int, now: int): (r: Response)
    requires InPythonRange(DayOf(ts)) && InPythonRange(DayOf(now)) && |rows| > 0 && IndicatorCalculator.InRange(rows)
  {
    var isToday := DayOf(ts) == DayOf(now);
    var entries := Paired(MonthlyIndicators(rows), WeeklyIndicators(rows));
    Data(ts, entries, CompositeMetricsService.Composite(entries), LastClose(rows),
         OutcomeService.PriceOutcomes(src, ts, Some(LastClose(rows)), now), Name(DayOf(ts), isToday), !isToday, Calculated)
  }

  /** The row a full calculation stores. */
  function FullRow(rows: seq<DailyBar>, src: DataSources.Sources, ts: int, now: int): DbUtils.IndicatorRow
    requires InPythonRange(DayOf(ts)) && InPythonRange(DayOf(now)) && |rows| > 0 && IndicatorCalculator.InRange(rows)
  {
    var m, w := MonthlyIndicators(rows), WeeklyIndicators(rows);
    DbUtils.FlattenSnapshot(DayOf(ts), LastClose(rows), m, w, CompositeMetricsService.Composite(Paired(m, w)),
                            OutcomeService.PriceOutcomes(src, ts, Some(LastClose(rows)), now), now)
  }

  /** The cache lookup the request starts with. */
  function Cached(cache: map<Day, DbUtils.IndicatorRow>, ts: int): (r: Option<DbUtils.IndicatorRow>)
    ensures r.Some? <==> DayOf(ts) in cache
    ensures r.Some? ==> r.value == cache[DayOf(ts)]
  {
    if DayOf(ts) in cache then Some(cache[DayOf(ts)]) else None
  }

  /** Requests the model covers: the target, the window's first day and the clock lie in Python's calendar. */
  predicate InRange(ts: int, now: int) {
    InPythonRange(DataSources.WindowStart(ts, HistoryYears)) && InPythonRange(DayOf(ts)) && InPythonRange(DayOf(now))
  }

  /** The cache rule applied to the stored row of the target's day. */
  predicate Hit(cache: map<Day, DbUtils.IndicatorRow>, ts: int, now: int) {
    CacheHit(Cached(cache, ts), DayOf(ts) == DayOf(now), now)
  }

  /** The daily store once the outcomes for base price `price` have been fetched. */
  function OutcomeStore(t: map<Day, DbUtils.DailyRow>, src: DataSources.Sources, ts: int, price: real, now: int, writeOk: bool): map<Day, DbUtils.DailyRow>
    requires InPythonRange(DayOf(ts)) && InPythonRange(DayOf(now))
  {
    if OutcomeService.UsableBase(Some(price)) then OutcomeService.StoredAfter(t, src, DayOf(ts), OutcomeService.Horizons, now, writeOk)
    else t
  }

  /** The daily store after the short-history branch: the day's record, then its outcomes. */
  function ShortHistoryStore(t: map<Day, DbUtils.DailyRow>, src: DataSources.Sources, ts: int, now: int, writeOk: bool): map<Day, DbUtils.DailyRow>
    requires InPythonRange(DayOf(ts)) && InPythonRange(DayOf(now))
  {
    match DataSources.Fetch(src, ts, now)
    case Failure(_) => t
    case Success(v) => OutcomeStore(DbUtils.Upsert(t, DayOf(ts), DbUtils.DailyRowOf(DayOf(ts), v, now), writeOk), src, ts, v.close, now, writeOk)
  }

  /** The daily store once the window has been loaded. */
  function Loaded(daily: map<Day, DbUtils.DailyRow>, src: DataSources.Sources, ts: int, now: int, writeOk: bool): map<Day, DbUtils.DailyRow>
    requires InPythonRange(DataSources.WindowStart(ts, HistoryYears)) && InPythonRange(DayOf(ts))
  {
    DataSources.Filled(daily, DataSources.FetchDay(src, now), DataSources.WindowStart(ts, HistoryYears), DayOf(ts), now, writeOk)
  }

  /** The response of a cache miss. */
  function RecomputeResponse(daily: map<Day, DbUtils.DailyRow>, src: DataSources.Sources, ts: int, now: int): Response
    requires InRange(ts, now)
  {
    var rows := History(daily, src, ts, now);
    if |rows| < MinDailyRows then ShortHistoryResponse(src, ts, now, |rows|)
    else
      HistoryInRange(daily, src, ts, now);
      FullResponse(rows, src, ts, now)
  }

  /** The daily store after a cache miss. */
  function RecomputeDaily(daily: map<Day, DbUtils.DailyRow>, src: DataSources.Sources, ts: int, now: int, writeOk: bool): map<Day, DbUtils.DailyRow>
    requires InRange(ts, now)
  {
    var rows := History(daily, src, ts, now);
    var t := Loaded(daily, src, ts, now, writeOk);
    if |rows| < MinDailyRows then ShortHistoryStore(t, src, ts, now, writeOk)
    else OutcomeStore(t, src, ts, LastClose(rows), now, writeOk)
  }

  /** The snapshot table after a cache miss: only a full calculation writes it. */
  function RecomputeCache(daily: map<Day, DbUtils.DailyRow>, cache: map<Day, DbUtils.IndicatorRow>,
                          src: DataSources.Sources, ts: int, now: int, writeOk: bool): map<Day, DbUtils.IndicatorRow>
    requires InRange(ts, now)
  {
    var rows := History(daily, src, ts, now);
    if |rows| < MinDailyRows then cache
    else
      HistoryInRange(daily, src, ts, now);
      DbUtils.Upsert(cache, DayOf(ts), FullRow(rows, src, ts, now), writeOk)
  }

  /** `get_indicator_data(target_date)` as a specification, from the tables as they were. */
  function IndicatorData(daily: map<Day, DbUtils.DailyRow>, cache: map<Day, DbUtils.IndicatorRow>,
                         src: DataSources.Sources, ts: int, now: int): Response
    requires InRange(ts, now)
  {
    if Hit(cache, ts, now) then FormatDbData(cache[DayOf(ts)], ts, DayOf(ts) == DayOf(now))
    else RecomputeResponse(daily, src, ts, now)
  }

  /** The daily store after the request. */
  function DailyAfter(daily: map<Day, DbUtils.DailyRow>, cache: map<Day, DbUtils.IndicatorRow>,
                      src: DataSources.Sources, ts: int, now: int, writeOk: bool): map<Day, DbUtils.DailyRow>
    requires InRange(ts, now)
  {
    if Hit(cache, ts, now) then daily else RecomputeDaily(daily, src, ts, now, writeOk)
  }

  /** The snapshot table after the request. */
  function CacheAfter(daily: map<Day, DbUtils.DailyRow>, cache: map<Day, DbUtils.IndicatorRow>,
                      src: DataSources.Sources, ts: int, now: int, writeOk: bool): map<Day, DbUtils.IndicatorRow>
    requires InRange(ts, now)
  {
    if Hit(cache, ts, now) then cache else RecomputeCache(daily, cache, src, ts, now, writeOk)
  }

  // ---- the orchestration ----

  /** `get_indicator_data(target_date)`: the cache check. */
  method GetIndicatorData(db: DbUtils.Database, src: DataSources.Sources, ts: int, now: int, writeOk: bool)
    returns (r: Response)
    requires db.Valid() && InRange(ts, now)
    modifies db
    ensures db.Valid()
    ensures r == IndicatorData(old(db.dailyOhlcv), old(db.calculatedIndicators), src, ts, now)
    ensures db.dailyOhlcv == DailyAfter(old(db.dailyOhlcv), old(db.calculatedIndicators), src, ts, now, writeOk)
    ensures db.calculatedIndicators == CacheAfter(old(db.dailyOhlcv), old(db.calculatedIndicators), src, ts, now, writeOk)
  {
    var isToday := DayOf(ts) == DayOf(now);
    var cached := db.GetFullIndicatorSet(ts);
    if cached.Some? && (!isToday || (cached.value.calculatedAt != 0 && now - cached.value.calculatedAt < FreshSeconds)) {
      return FormatDbData(cached.value, ts, isToday);
    }
    r := Recompute(db, src, ts, now, writeOk);
  }

  /** A cache miss: load the window, then take the short-history branch or calculate. */
  method Recompute(db: DbUtils.Database, src: DataSources.Sources, ts: int, now: int, writeOk: bool)
    returns (r: Response)
    requires db.Valid() && InRange(ts, now)
    modifies db
    ensures db.Valid()
    ensures r == RecomputeResponse(old(db.dailyOhlcv), src, ts, now)
    ensures db.dailyOhlcv == RecomputeDaily(old(db.dailyOhlcv), src, ts, now, writeOk)
    ensures db.calculatedIndicators == RecomputeCache(old(db.dailyOhlcv), old(db.calculatedIndicators), src, ts, now, writeOk)
  {
    ghost var daily0 := db.dailyOhlcv;
    var rows := DataSources.GetHistoricalDataForIndicators(db, src, ts, HistoryYears, now, writeOk);
    assert rows == History(daily0, src, ts, now);
    assert db.dailyOhlcv == Loaded(daily0, src, ts, now, writeOk);
    HistoryInRange(daily0, src, ts, now);
    if |rows| < MinDailyRows {
      r := ShortHistoryBranch(db, src, ts, now, |rows|, writeOk);
    } else {
      r := Calculate(db, src, ts, now, rows, writeOk);
    }
  }


  /** The branch for fewer than 60 daily bars. */
  method ShortHistoryBranch(db: DbUtils.Database, src: DataSources.Sources, ts: int, now: int, found: nat, writeOk: bool)
    returns (r: Response)
    requires db.Valid() && InPythonRange(DayOf(ts)) && InPythonRange(DayOf(now))
    modifies db
    ensures db.Valid()
    ensures r == ShortHistoryResponse(src, ts, now, found)
    ensures db.dailyOhlcv == ShortHistoryStore(old(db.dailyOhlcv), src, ts, now, writeOk)
    ensures db.calculatedIndicators == old(db.calculatedIndicators)
  {
    var isToday := DayOf(ts) == DayOf(now);
    var fetched := DataSources.FetchAndStoreDailyOhlcv(db, src, ts, now, writeOk);
    if fetched.Failure? {
      return Error(found, fetched.error);
    }
    var price := fetched.value.close;
    var outcomes := OutcomeService.CalculatePriceOutcomes(db, src, ts, Some(price), now, writeOk);
    r := Data(ts, Paired(map[], map[]), ZeroComposite, price, outcomes, Name(DayOf(ts), isToday), !isToday, ShortHistory(found));
  }

  /** The full calculation: resample, indicators, composite, outcomes, then the snapshot is stored. */
  method Calculate(db: DbUtils.Database, src: DataSources.Sources, ts: int, now: int, rows: seq<DailyBar>, writeOk: bool)
    returns (r: Response)
    requires db.Valid() && InPythonRange(DayOf(ts)) && InPythonRange(DayOf(now)) && |rows| > 0 && IndicatorCalculator.InRange(rows)
    modifies db
    ensures db.Valid()
    ensures r == FullResponse(rows, src, ts, now)
    ensures db.dailyOhlcv == OutcomeStore(old(db.dailyOhlcv), src, ts, LastClose(rows), now, writeOk)
    ensures db.calculatedIndicators == DbUtils.Upsert(old(db.calculatedIndicators), DayOf(ts), FullRow(rows, src, ts, now), writeOk)
  {
    var isToday := DayOf(ts) == DayOf(now);
    var price := rows[|rows| - 1].bar.close;
    var weekly := IndicatorCalculator.Resample(rows, "W-MON");
    var monthly := IndicatorCalculator.Resample(rows, "ME");
    var m := IndicatorCalculator.CalculateIndicators(IndicatorCalculator.BarsOf(monthly), "monthly");
    var w := IndicatorCalculator.CalculateIndicators(IndicatorCalculator.BarsOf(weekly), "weekly");
    var entries := Paired(m, w);
    var composite := CompositeMetricsService.CalculateCompositeMetrics(entries);
    var outcomes := OutcomeService.CalculatePriceOutcomes(db, src, ts, Some(price), now, writeOk);
    db.StoreFullIndicatorSet(ts, price, m, w, composite, outcomes, now, writeOk);
    r := Data(ts, entries, composite, price, outcomes, Name(DayOf(ts), isToday), !isToday, Calculated);
  }

  // ---- properties ----

  /** Every day of the loaded window lies in the calendar, so it can be resampled. */
  lemma HistoryInRange(daily: map<Day, DbUtils.DailyRow>, src: DataSources.Sources, ts: int, now: int)
    requires InPythonRange(DataSources.WindowStart(ts, HistoryYears)) && InPythonRange(DayOf(ts))
    ensures IndicatorCalculator.InRange(History(daily, src, ts, now))
  {
    DataSources.WindowAscending(daily, DataSources.FetchDay(src, now), DataSources.WindowStart(ts, HistoryYears), DayOf(ts));
  }

  /** A stored snapshot of a past day is always served from the cache. */
  lemma PastDayAlwaysHit(row: DbUtils.IndicatorRow, ts: int, now: int)
    requires DayOf(ts) != DayOf(now)
    ensures CacheHit(Some(row), DayOf(ts) == DayOf(now), now)
  {
  }

  /** Today's snapshot is served only while it is less than an hour old (and has a nonzero time). */
  lemma TodayHitIffFresh(row: DbUtils.IndicatorRow, ts: int, now: int)
    requires DayOf(ts) == DayOf(now)
    ensures CacheHit(Some(row), true, now) <==> row.calculatedAt != 0 && now - row.calculatedAt < 3600
    ensures !CacheHit(None, true, now) && !CacheHit(None, false, now)
  {
  }

  /** The nested response holds exactly the values the flat row was written from. */
  lemma FormatInvertsFlatten(n: Day, price: real, m: IndicatorMap, w: IndicatorMap,
                             c: CompositeMetrics, o: Outcomes, calcTime: int, ts: int, isToday: bool)
    requires InPythonRange(n) && DayOf(ts) == n
    ensures var r := FormatDbData(DbUtils.FlattenSnapshot(n, price, m, w, c, o, calcTime), ts, isToday);
            r.indicators == Paired(m, w) && r.composite == c && r.price == price && r.outcomes == o
  {
    var r := FormatDbData(DbUtils.FlattenSnapshot(n, price, m, w, c, o, calcTime), ts, isToday);
    assert |r.indicators| == |Paired(m, w)|;
    forall i | 0 <= i < |IndicatorKeys|
      ensures r.indicators[i] == Paired(m, w)[i]
    {
    }
  }

  /**
   * A snapshot that was calculated and written is what a later cache hit on the
   * same date returns, apart from its description.
   */
  lemma StoredSnapshotServesSameData(rows: seq<DailyBar>, src: DataSources.Sources, ts: int, now: int, isToday: bool)
    requires InPythonRange(DayOf(ts)) && InPythonRange(DayOf(now)) && |rows| > 0 && IndicatorCalculator.InRange(rows)
    requires isToday == (DayOf(ts) == DayOf(now))
    ensures var cache := FormatDbData(FullRow(rows, src, ts, now), ts, isToday);
            cache == FullResponse(rows, src, ts, now).(origin := FromCache)
  {
    var m, w := MonthlyIndicators(rows), WeeklyIndicators(rows);
    FormatInvertsFlatten(DayOf(ts), LastClose(rows), m, w, CompositeMetricsService.Composite(Paired(m, w)),
                         OutcomeService.PriceOutcomes(src, ts, Some(LastClose(rows)), now), now, ts, isToday);
  }

  /** A full calculation whose write succeeds stores the snapshot it returns. */
  lemma CalculationStoresResponse(daily: map<Day, DbUtils.DailyRow>, cache: map<Day, DbUtils.IndicatorRow>,
                                  src: DataSources.Sources, ts: int, now: int)
    requires InRange(ts, now)
    requires IndicatorData(daily, cache, src, ts, now).Data? && IndicatorData(daily, cache, src, ts, now).origin == Calculated
    ensures var after := CacheAfter(daily, cache, src, ts, now, true);
            DayOf(ts) in after
            && FormatDbData(after[DayOf(ts)], ts, DayOf(ts) == DayOf(now))
               == IndicatorData(daily, cache, src, ts, now).(origin := FromCache)
  {
    var rows := History(daily, src, ts, now);
    HistoryInRange(daily, src, ts, now);
    assert !Hit(cache, ts, now);
    assert |rows| >= MinDailyRows;
    StoredSnapshotServesSameData(rows, src, ts, now, DayOf(ts) == DayOf(now));
  }

  /**
   * Asked again at the same moment (at a nonzero time), a freshly calculated
   * date is a cache hit and returns the same data.
   */
  lemma RepeatIsServedFromCache(daily: map<Day, DbUtils.DailyRow>, cache: map<Day, DbUtils.IndicatorRow>,
                                src: DataSources.Sources, ts: int, now: int)
    requires InRange(ts, now) && now != 0
    requires IndicatorData(daily, cache, src, ts, now).Data? && IndicatorData(daily, cache, src, ts, now).origin == Calculated
    ensures Hit(CacheAfter(daily, cache, src, ts, now, true), ts, now)
    ensures IndicatorData(DailyAfter(daily, cache, src, ts, now, true), CacheAfter(daily, cache, src, ts, now, true), src, ts, now)
            == IndicatorData(daily, cache, src, ts, now).(origin := FromCache)
  {
    CalculationStoresResponse(daily, cache, src, ts, now);
    var rows := History(daily, src, ts, now);
    HistoryInRange(daily, src, ts, now);
    assert !Hit(cache, ts, now);
    assert |rows| >= MinDailyRows;
    assert CacheAfter(daily, cache, src, ts, now, true)[DayOf(ts)] == FullRow(rows, src, ts, now);
  }

  /** Without enough history, every indicator is unavailable and the composite scores are zero. */
  lemma ShortHistoryHasNoIndicators(src: DataSources.Sources, ts: int, now: int, found: nat)
    requires InPythonRange(DayOf(ts)) && InPythonRange(DayOf(now))
    ensures var r := ShortHistoryResponse(src, ts, now, found);
            (r.Error? <==> DataSources.Fetch(src, ts, now).Failure?)
            && (r.Data? ==>
                  r.composite == ZeroComposite && r.price == DataSources.Fetch(src, ts, now).value.close
                  && |r.indicators| == |IndicatorKeys|
                  && forall i :: 0 <= i < |r.indicators| ==>
                       r.indicators[i].key == IndicatorKeys[i] && r.indicators[i].values == Some(TfValues(None, None)))
  {
  }

  /** Every response but the error has status 200, and `isCustomDate` and the name's suffix both say whether the date is today. */
  lemma ResponseShape(daily: map<Day, DbUtils.DailyRow>, cache: map<Day, DbUtils.IndicatorRow>,
                      src: DataSources.Sources, ts: int, now: int)
    requires InRange(ts, now)
    ensures var r := IndicatorData(daily, cache, src, ts, now);
            var today := DayOf(ts) == DayOf(now);
            (StatusCode(r) == 200 <==> r.Data?)
            && (r.Data? ==>
                  r.isCustomDate == !today
                  && r.name == DbUtils.DayKey(DayOf(ts)) + (if today then " (Today)" else " (Historical)"))
  {
  }

  /** A request fails only when history is short and no source has the day's price. */
  lemma ErrorOnlyWithoutPrice(daily: map<Day, DbUtils.DailyRow>, cache: map<Day, DbUtils.IndicatorRow>,
                              src: DataSources.Sources, ts: int, now: int)
    requires InRange(ts, now)
    ensures var r := IndicatorData(daily, cache, src, ts, now);
            r.Error? ==> r.found == |History(daily, src, ts, now)| && r.found < MinDailyRows
                         && DataSources.Fetch(src, ts, now).Failure?
                         && r.lastError == DataSources.NotFound(DayOf(ts))
  {
  }
}
