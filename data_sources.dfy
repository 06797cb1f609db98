/**
 * The data-source orchestrator: one day's OHLCV from the local CSV files,
 * then CoinGecko (only for the last 365 days), then Kraken, stored in the
 * daily table on success; and the indicator window, which walks the days of
 * the last `years * 365` days, preferring stored rows and fetching the rest.
 */
module DataSources {
  import opened Wrappers
  import opened Records
  import opened Calendar
  import opened Series
  import DbUtils
  import CsvDataLoader
  import ApiClients
  import IndicatorCalculator

  type DailyBar = IndicatorCalculator.DailyBar

  /** What the outside world answers: the CSV files on disk and the replies of both APIs. */
  datatype Sources = Sources(
    csvFiles: seq<CsvDataLoader.CsvFile>,
    coinGecko: (Day, nat) -> ApiClients.CgReply,
    kraken: (int, nat) -> ApiClients.KrReply)

  /** The default arguments of the two client calls. */
  const CoinGeckoRetries: nat := 3
  const CoinGeckoDelay: real := 2.0
  const KrakenRetries: nat := 3
  const KrakenDelay: real := 1.0

  /** CoinGecko is asked only for days at most this many days before today. */
  const RecentDays: int := 365

  predicate Recent(day: Day, now: int) {
    0 <= DayOf(now) - day <= RecentDays
  }

  function NotFound(day: Day): string
    requires InPythonRange(day)
  {
    "Data not found for " + DbUtils.DayKey(day) + " in any source (CSV, CoinGecko, Kraken)."
  }

  /** The first and last day of a loaded CSV frame, as the loader computes them. */
  function FrameRange(df: seq<CsvDataLoader.CsvRow>): (Option<Day>, Option<Day>) {
    if |df| == 0 then (None, None) else (Some(DayOf(df[0].ts)), Some(DayOf(df[|df| - 1].ts)))
  }

  /** The CSV lookup of a freshly constructed loader, at the day's midnight. */
  function CsvValues(files: seq<CsvDataLoader.CsvFile>, ts: int): Option<Ohlcv> {
    var df := CsvDataLoader.Frame(files);
    var (lo, hi) := FrameRange(df);
    CsvDataLoader.Lookup(df, lo, hi, Midnight(ts))
  }

  function CoinGeckoValues(src: Sources, day: Day): Option<Ohlcv> {
    ApiClients.CoinGeckoFrom(src.coinGecko, day, CoinGeckoRetries, CoinGeckoDelay, 0).result
  }

  function KrakenValues(src: Sources, ts: int): Option<Ohlcv> {
    ApiClients.KrakenFrom(src.kraken, Midnight(ts), KrakenRetries, KrakenDelay, 0).result
  }

  /** The API fallback: CoinGecko for a recent day, then Kraken. */
  function ApiValues(src: Sources, ts: int, now: int): Option<Ohlcv> {
    var day := DayOf(ts);
    if Recent(day, now) && CoinGeckoValues(src, day).Some? then CoinGeckoValues(src, day)
    else KrakenValues(src, ts)
  }

  /** `fetch_and_store_daily_ohlcv` as a specification: the values found, or the error message. */
  function Fetch(src: Sources, ts: int, now: int): (r: Result<Ohlcv, string>)
    requires InPythonRange(DayOf(ts))
    ensures r.Failure? ==> r.error == NotFound(DayOf(ts))
  {
    var csv := CsvValues(src.csvFiles, ts);
    if csv.Some? then Success(csv.value)
    else
      match ApiValues(src, ts, now)
      case Some(v) => Success(v)
      case None => Failure(NotFound(DayOf(ts)))
  }

  /** The sources a found record can name. */
  predicate KnownSource(s: string) {
    s in {"csv_exact", "csv_day_match", "coingecko", "kraken", "kraken_adjusted_time"}
  }

  /**
   * `fetch_and_store_daily_ohlcv(date)`: a fresh CSV loader, then the APIs;
   * the record found is stored under its day before it is returned.
   */
  method FetchAndStoreDailyOhlcv(db: DbUtils.Database, src: Sources, ts: int, now: int, writeOk: bool)
    returns (r: Result<Ohlcv, string>)
    requires db.Valid() && InPythonRange(DayOf(ts))
    modifies db
    ensures db.Valid()
    ensures r == Fetch(src, ts, now)
    ensures r.Success? ==> db.dailyOhlcv == DbUtils.Upsert(old(db.dailyOhlcv), DayOf(ts), DbUtils.DailyRowOf(DayOf(ts), r.value, now), writeOk)
    ensures r.Failure? ==> db.dailyOhlcv == old(db.dailyOhlcv)
    ensures db.calculatedIndicators == old(db.calculatedIndicators)
  {
    var loader := new CsvDataLoader.Loader(src.csvFiles);
    var midnight := Midnight(ts);
    var csv := loader.GetOhlcvForDate(midnight);
    if csv.Some? {
      db.StoreDailyOhlcv(midnight, csv.value, now, writeOk);
      return Success(csv.value);
    }
    var api := FetchFromApis(src, ts, now);
    if api.Some? {
      db.StoreDailyOhlcv(midnight, api.value, now, writeOk);
      return Success(api.value);
    }
    r := Failure(NotFound(DayOf(ts)));
  }

  /** The part of `fetch_and_store_daily_ohlcv` after the CSV miss: the recency test and both clients. */
  method FetchFromApis(src: Sources, ts: int, now: int) returns (r: Option<Ohlcv>)
    ensures r == ApiValues(src, ts, now)
  {
    var day := DayOf(ts);
    var daysAgo := DayOf(now) - day;
    if 0 <= daysAgo <= RecentDays {
      var cg := ApiClients.CoinGeckoGetOhlcvForDate(src.coinGecko, day, CoinGeckoRetries, CoinGeckoDelay);
      if cg.result.Some? {
        return cg.result;
      }
    }
    var kr := ApiClients.KrakenGetOhlcvForDate(src.kraken, Midnight(ts), KrakenRetries, KrakenDelay);
    r := kr.result;
  }

  // ---- the indicator window ----

  /** One day's fetch, for every day the window may ask about. */
  type Fetcher = Day -> Result<Ohlcv, string>

  /** The orchestrator asked for day d. */
  function FetchOn(src: Sources, d: Day, now: int): Result<Ohlcv, string>
    requires InPythonRange(d)
  {
    DayOfBounds(DayStart(d), d);
    Fetch(src, DayStart(d), now)
  }

  /** The orchestrator as a fetcher; days outside Python's date range cannot be asked for. */
  function FetchDay(src: Sources, now: int): Fetcher {
    d => if InPythonRange(d) then FetchOn(src, d, now) else Failure("")
  }

  /** `fetch` answers like the orchestrator on every day of lo..hi. */
  predicate FetchesLike(fetch: Fetcher, src: Sources, now: int, lo: Day, hi: Day) {
    InWindowRange(lo, hi)
    && forall d {:trigger FetchOn(src, d, now)} :: lo <= d <= hi ==> fetch(d) == FetchOn(src, d, now)
  }

  function BarOfValues(v: Ohlcv): Bar {
    Bar(v.open, v.high, v.low, v.close, v.volume)
  }

  function BarOfRow(row: DbUtils.DailyRow): Bar {
    Bar(row.open, row.high, row.low, row.close, row.volume)
  }

  /** The days lo..hi are empty or lie inside Python's date range. */
  predicate InWindowRange(lo: Day, hi: Day) {
    lo > hi || (InPythonRange(lo) && InPythonRange(hi))
  }

  /** What one day contributes to the window: its stored row, else a fetched record, else nothing. */
  function DayEntry(table: map<Day, DbUtils.DailyRow>, fetch: Fetcher, d: Day): (e: seq<DailyBar>)
    ensures |e| <= 1 && forall i :: 0 <= i < |e| ==> e[i].day == d
  {
    if d in table then [IndicatorCalculator.DailyBar(d, BarOfRow(table[d]))]
    else
      match fetch(d)
      case Success(v) => [IndicatorCalculator.DailyBar(d, BarOfValues(v))]
      case Failure(_) => []
  }

  /** The rows `get_historical_data_for_indicators` collects for the days lo..hi, read against `table`. */
  function Window(table: map<Day, DbUtils.DailyRow>, fetch: Fetcher, lo: Day, hi: Day): seq<DailyBar>
    decreases hi - lo + 1
  {
    if lo > hi then []
    else Window(table, fetch, lo, hi - 1) + DayEntry(table, fetch, hi)
  }

  /** One day's step of the window on the daily table: a day not yet stored is fetched and upserted. */
  function Fill(t: map<Day, DbUtils.DailyRow>, fetch: Fetcher, d: Day, now: int, writeOk: bool): map<Day, DbUtils.DailyRow>
    requires InPythonRange(d)
  {
    if d in t then t
    else
      match fetch(d)
      case Success(v) => DbUtils.Upsert(t, d, DbUtils.DailyRowOf(d, v, now), writeOk)
      case Failure(_) => t
  }

  /** The daily table after the window's steps for lo..hi. */
  function Filled(table: map<Day, DbUtils.DailyRow>, fetch: Fetcher, lo: Day, hi: Day, now: int, writeOk: bool)
    : map<Day, DbUtils.DailyRow>
    requires InWindowRange(lo, hi)
    decreases hi - lo + 1
  {
    if lo > hi then table
    else Fill(Filled(table, fetch, lo, hi - 1, now, writeOk), fetch, hi, now, writeOk)
  }

  /** What one step leaves on day k. */
  lemma FillAt(t: map<Day, DbUtils.DailyRow>, fetch: Fetcher, d: Day, now: int, writeOk: bool, k: Day)
    requires InPythonRange(d)
    ensures var f := Fill(t, fetch, d, now, writeOk);
            var written := k == d && d !in t && writeOk && fetch(d).Success?;
            (k in f <==> k in t || written)
            && (k in t ==> f[k] == t[k])
            && (written ==> f[k] == DbUtils.DailyRowOf(d, fetch(d).value, now))
  {
  }

  /** What the filled table holds on day k: the stored row, else the fetched record if it was written. */
  lemma {:induction false} FilledAt(table: map<Day, DbUtils.DailyRow>, fetch: Fetcher, lo: Day, hi: Day, now: int, writeOk: bool, k: Day)
    requires InWindowRange(lo, hi)
    ensures var f := Filled(table, fetch, lo, hi, now, writeOk);
            var written := k !in table && lo <= k <= hi && writeOk && fetch(k).Success?;
            (k in f <==> k in table || written)
            && (k in table ==> f[k] == table[k])
            && (written ==> f[k] == DbUtils.DailyRowOf(k, fetch(k).value, now))
    decreases hi - lo + 1
  {
    if lo <= hi {
      var t := Filled(table, fetch, lo, hi - 1, now, writeOk);
      FilledAt(table, fetch, lo, hi - 1, now, writeOk, k);
      FilledAt(table, fetch, lo, hi - 1, now, writeOk, hi);
      FillAt(t, fetch, hi, now, writeOk, k);
    }
  }

  /**
   * `get_historical_data_for_indicators(end_date, years)`: for each day from
   * `years * 365` days before the end day up to the end day, the stored row if
   * there is one, else the record fetched (and stored) by the orchestrator;
   * days nothing is found for are skipped.
   */
  /** The first day of a `years`-year window ending on the day of `endTs`: 365 days per year, as the source counts them. */
  function WindowStart(endTs: int, years: nat): Day {
    DayOf(endTs) - years * 365
  }

  method GetHistoricalDataForIndicators(db: DbUtils.Database, src: Sources, endTs: int, years: nat, now: int, writeOk: bool)
    returns (rows: seq<DailyBar>)
    requires db.Valid()
    requires InPythonRange(WindowStart(endTs, years)) && InPythonRange(DayOf(endTs))
    modifies db
    ensures db.Valid()
    ensures rows == Window(old(db.dailyOhlcv), FetchDay(src, now), WindowStart(endTs, years), DayOf(endTs))
    ensures db.dailyOhlcv == Filled(old(db.dailyOhlcv), FetchDay(src, now), WindowStart(endTs, years), DayOf(endTs), now, writeOk)
    ensures db.calculatedIndicators == old(db.calculatedIndicators)
  {
    var lo, hi := WindowStart(endTs, years), DayOf(endTs);
    ghost var fetch := FetchDay(src, now);
    FetchDayFetches(src, now, lo, hi);
    rows := CollectDays(db, src, fetch, lo, hi, now, writeOk);
  }

  lemma FetchDayFetches(src: Sources, now: int, lo: Day, hi: Day)
    requires InPythonRange(lo) && InPythonRange(hi)
    ensures FetchesLike(FetchDay(src, now), src, now, lo, hi)
  {
    forall d | lo <= d <= hi
      ensures FetchDay(src, now)(d) == FetchOn(src, d, now)
    {
    }
  }

  /** The loop over the date range lo..hi, with `fetch` standing for the orchestrator. */
  method CollectDays(db: DbUtils.Database, src: Sources, ghost fetch: Fetcher, lo: Day, hi: Day, now: int, writeOk: bool)
    returns (rows: seq<DailyBar>)
    requires db.Valid() && FetchesLike(fetch, src, now, lo, hi) && lo <= hi
    modifies db
    ensures db.Valid()
    ensures rows == Window(old(db.dailyOhlcv), fetch, lo, hi)
    ensures db.dailyOhlcv == Filled(old(db.dailyOhlcv), fetch, lo, hi, now, writeOk)
    ensures db.calculatedIndicators == old(db.calculatedIndicators)
  {
    ghost var table0 := db.dailyOhlcv;
    rows := [];
    var d := lo;
    while d <= hi
      invariant lo <= d <= hi + 1
      invariant db.Valid()
      invariant db.calculatedIndicators == old(db.calculatedIndicators)
      invariant rows == Window(table0, fetch, lo, d - 1)
      invariant db.dailyOhlcv == Filled(table0, fetch, lo, d - 1, now, writeOk)
      decreases hi - d
    {
      FilledAt(table0, fetch, lo, d - 1, now, writeOk, d);
      var entry := CollectDay(db, src, fetch, lo, hi, d, now, writeOk);
      rows := rows + entry;
      d := d + 1;
    }
  }

  /** One pass of the loop: the stored row of day d, else the orchestrator's record, which it stores. */
  method CollectDay(db: DbUtils.Database, src: Sources, ghost fetch: Fetcher, ghost lo: Day, ghost hi: Day, d: Day, now: int, writeOk: bool)
    returns (entry: seq<DailyBar>)
    requires db.Valid() && FetchesLike(fetch, src, now, lo, hi) && lo <= d <= hi
    modifies db
    ensures db.Valid()
    ensures entry == DayEntry(old(db.dailyOhlcv), fetch, d)
    ensures db.dailyOhlcv == Fill(old(db.dailyOhlcv), fetch, d, now, writeOk)
    ensures db.calculatedIndicators == old(db.calculatedIndicators)
  {
    DayOfBounds(DayStart(d), d);
    var stored := db.GetDailyOhlcv(DayStart(d));
    if stored.Some? {
      // The row's own date is the index, as `iso_string_to_date(date_str)` gives it.
      return [IndicatorCalculator.DailyBar(stored.value.date, BarOfRow(stored.value))];
    }
    var fetched := FetchAndStoreDailyOhlcv(db, src, DayStart(d), now, writeOk);
    assert fetched == FetchOn(src, d, now);
    if fetched.Success? {
      entry := [IndicatorCalculator.DailyBar(d, BarOfValues(fetched.value))];
    } else {
      entry := [];
    }
  }

  // ---- properties ----

  /** A CSV hit wins: the APIs are not consulted. */
  lemma CsvFirst(src: Sources, ts: int, now: int)
    requires InPythonRange(DayOf(ts)) && CsvValues(src.csvFiles, ts).Some?
    ensures Fetch(src, ts, now) == Success(CsvValues(src.csvFiles, ts).value)
  {
  }

  /** A day more than 365 days ago, or after today, never reaches CoinGecko: its replies do not matter. */
  lemma OldDaysSkipCoinGecko(src: Sources, other: (Day, nat) -> ApiClients.CgReply, ts: int, now: int)
    requires InPythonRange(DayOf(ts)) && !Recent(DayOf(ts), now)
    ensures Fetch(src, ts, now) == Fetch(src.(coinGecko := other), ts, now)
  {
  }

  /** Kraken is asked only after the CSV files and CoinGecko gave nothing. */
  lemma KrakenLast(src: Sources, other: (int, nat) -> ApiClients.KrReply, ts: int, now: int)
    requires InPythonRange(DayOf(ts))
    requires CsvValues(src.csvFiles, ts).Some? || (Recent(DayOf(ts), now) && CoinGeckoValues(src, DayOf(ts)).Some?)
    ensures Fetch(src, ts, now) == Fetch(src.(kraken := other), ts, now)
  {
  }

  /** A found record names the source it came from, and a failure names the day it was looking for. */
  lemma FetchSources(src: Sources, ts: int, now: int)
    requires InPythonRange(DayOf(ts))
    ensures var r := Fetch(src, ts, now);
            (r.Success? ==> KnownSource(r.value.source))
            && (r.Failure? <==> CsvValues(src.csvFiles, ts).None?
                                && (!Recent(DayOf(ts), now) || CoinGeckoValues(src, DayOf(ts)).None?)
                                && KrakenValues(src, ts).None?)
  {
    CsvSource(src.csvFiles, ts);
    ApiSource(src, ts, now);
  }

  lemma CsvSource(files: seq<CsvDataLoader.CsvFile>, ts: int)
    ensures CsvValues(files, ts).Some? ==> KnownSource(CsvValues(files, ts).value.source)
  {
  }

  lemma ApiSource(src: Sources, ts: int, now: int)
    ensures ApiValues(src, ts, now).Some? ==> KnownSource(ApiValues(src, ts, now).value.source)
  {
    ApiClients.CoinGeckoRunFacts(src.coinGecko, DayOf(ts), CoinGeckoRetries, CoinGeckoDelay, 0);
    ApiClients.KrakenRunFacts(src.kraken, Midnight(ts), KrakenRetries, KrakenDelay, 0);
  }

  /** The window holds at most one row per day, in strictly ascending day order, all within lo..hi. */
  lemma {:induction false} WindowAscending(table: map<Day, DbUtils.DailyRow>, fetch: Fetcher, lo: Day, hi: Day)
    ensures var w := Window(table, fetch, lo, hi);
            |w| <= (if lo <= hi then hi - lo + 1 else 0)
            && (forall i :: 0 <= i < |w| ==> lo <= w[i].day <= hi)
            && (forall i, j :: 0 <= i < j < |w| ==> w[i].day < w[j].day)
    decreases hi - lo + 1
  {
    if lo <= hi {
      WindowAscending(table, fetch, lo, hi - 1);
    }
  }

  /** Some row of the window is for day d. */
  predicate HasDay(w: seq<DailyBar>, d: Day) {
    exists i :: 0 <= i < |w| && w[i].day == d
  }

  /** A day of lo..hi is in the window exactly when it was stored or a fetch finds it. */
  lemma {:induction false} WindowHasDay(table: map<Day, DbUtils.DailyRow>, fetch: Fetcher, lo: Day, hi: Day, d: Day)
    requires lo <= d <= hi
    ensures HasDay(Window(table, fetch, lo, hi), d) <==> d in table || fetch(d).Success?
    decreases hi - lo + 1
  {
    var w := Window(table, fetch, lo, hi);
    var p := Window(table, fetch, lo, hi - 1);
    var e := DayEntry(table, fetch, hi);
    assert w == p + e;
    WindowAscending(table, fetch, lo, hi - 1);
    if d == hi {
      if d in table || fetch(d).Success? {
        assert w[|p|].day == d;
      } else {
        assert w == p;
      }
    } else {
      WindowHasDay(table, fetch, lo, hi - 1, d);
      if HasDay(p, d) {
        var i :| 0 <= i < |p| && p[i].day == d;
        assert w[i] == p[i];
      }
      if HasDay(w, d) {
        var i :| 0 <= i < |w| && w[i].day == d;
        assert p[i] == w[i];
      }
    }
  }

  /** Days that were already stored keep their rows: the window only adds days it fetched. */
  lemma FilledKeepsStored(table: map<Day, DbUtils.DailyRow>, fetch: Fetcher, lo: Day, hi: Day, now: int, writeOk: bool, k: Day)
    requires InWindowRange(lo, hi) && k in table
    ensures k in Filled(table, fetch, lo, hi, now, writeOk) && Filled(table, fetch, lo, hi, now, writeOk)[k] == table[k]
  {
    FilledAt(table, fetch, lo, hi, now, writeOk, k);
  }

  /** A stored record yields the bar it was fetched with. */
  lemma StoredBar(d: Day, v: Ohlcv, now: int)
    requires InPythonRange(d)
    ensures BarOfRow(DbUtils.DailyRowOf(d, v, now)) == BarOfValues(v)
  {
  }

  /** Storing the fetched days does not change the window: a second call reads back the same rows. */
  lemma {:induction false} RefetchSameWindow(table: map<Day, DbUtils.DailyRow>, fetch: Fetcher, lo: Day, hi: Day, now: int, writeOk: bool, top: Day)
    requires hi <= top && InWindowRange(lo, top)
    ensures Window(Filled(table, fetch, lo, top, now, writeOk), fetch, lo, hi) == Window(table, fetch, lo, hi)
    decreases hi - lo + 1
  {
    if lo <= hi {
      var f := Filled(table, fetch, lo, top, now, writeOk);
      RefetchSameWindow(table, fetch, lo, hi - 1, now, writeOk, top);
      FilledEntry(table, fetch, lo, top, now, writeOk, hi);
      assert Window(f, fetch, lo, hi) == Window(f, fetch, lo, hi - 1) + DayEntry(f, fetch, hi);
    }
  }

  /** On one day of lo..top, the filled table contributes the entry the original table does. */
  lemma FilledEntry(table: map<Day, DbUtils.DailyRow>, fetch: Fetcher, lo: Day, top: Day, now: int, writeOk: bool, d: Day)
    requires lo <= d <= top && InWindowRange(lo, top)
    ensures DayEntry(Filled(table, fetch, lo, top, now, writeOk), fetch, d) == DayEntry(table, fetch, d)
  {
    var f := Filled(table, fetch, lo, top, now, writeOk);
    FilledAt(table, fetch, lo, top, now, writeOk, d);
    if d !in table && writeOk && fetch(d).Success? {
      StoredBar(d, fetch(d).value, now);
      assert BarOfRow(f[d]) == BarOfValues(fetch(d).value);
    }
  }
}
