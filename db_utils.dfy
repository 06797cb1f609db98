/**
 * The SQLite store: the ISO date keys and the two tables `daily_ohlcv` and
 * `calculated_indicators`, each with one row per date and `INSERT OR REPLACE`
 * (upsert) writes. A table is a map from day number to row, and a row holds
 * the day its `date_str` primary key names: the column's text is `DayKey` of
 * that day, and `DayKeyInjective` and `DayKeyParses` show that the text and the
 * day determine each other, so the two keyings agree.
 */
module DbUtils {
  import opened Wrappers
  import opened Calendar
  import opened Records

  // ---- ISO date strings ----

  function Pow10(k: nat): (r: nat)
    ensures r >= 1
  {
    if k == 0 then 1 else 10 * Pow10(k - 1)
  }

  predicate IsDigit(c: char) { '0' <= c <= '9' }

  predicate AllDigits(s: string) { forall i :: 0 <= i < |s| ==> IsDigit(s[i]) }

  function DigitChar(n: int): (c: char)
    requires 0 <= n <= 9
    ensures IsDigit(c)
  {
    ('0' as int + n) as char
  }

  function DigitValue(c: char): (n: int)
    requires IsDigit(c)
    ensures 0 <= n <= 9 && DigitChar(n) == c
  {
    c as int - '0' as int
  }

  /** n written in exactly `width` decimal digits, zero-padded on the left. */
  function Pad(n: nat, width: nat): (s: string)
    ensures |s| == width && AllDigits(s)
  {
    if width == 0 then [] else Pad(n / 10, width - 1) + [DigitChar(n % 10)]
  }

  /** The number a string of decimal digits denotes. */
  function ParseDigits(s: string): (n: nat)
    requires AllDigits(s)
    ensures n < Pow10(|s|)
  {
    if |s| == 0 then 0 else ParseDigits(s[..|s| - 1]) * 10 + DigitValue(s[|s| - 1])
  }

  lemma {:induction false} ParsePad(n: nat, width: nat)
    requires n < Pow10(width)
    ensures ParseDigits(Pad(n, width)) == n
  {
    if width > 0 {
      var s := Pad(n, width);
      assert s[..|s| - 1] == Pad(n / 10, width - 1);
      ParsePad(n / 10, width - 1);
    }
  }

  lemma {:induction false} PadParse(s: string)
    requires AllDigits(s)
    ensures Pad(ParseDigits(s), |s|) == s
  {
    if |s| > 0 {
      var init := s[..|s| - 1];
      var n := ParseDigits(s);
      assert n / 10 == ParseDigits(init) && n % 10 == DigitValue(s[|s| - 1]);
      PadParse(init);
      assert s == init + [s[|s| - 1]];
    }
  }

  /** A date whose `%Y` is four digits. */
  predicate Formattable(d: Date) {
    ValidDate(d) && d.year <= 9999
  }

  /** `date.strftime('%Y-%m-%d')` */
  function DateToIsoString(d: Date): (s: string)
    requires Formattable(d)
    ensures |s| == 10 && s[4] == '-' && s[7] == '-'
    ensures AllDigits(s[..4]) && AllDigits(s[5..7]) && AllDigits(s[8..])
  {
    var s := Pad(d.year, 4) + "-" + Pad(d.month, 2) + "-" + Pad(d.day, 2);
    assert s[..4] == Pad(d.year, 4) && s[5..7] == Pad(d.month, 2) && s[8..] == Pad(d.day, 2);
    s
  }

  /** `datetime.strptime(s, '%Y-%m-%d').date()`, None where strptime raises ValueError. */
  function IsoStringToDate(s: string): (r: Option<Date>)
    ensures r.Some? ==> Formattable(r.value)
  {
    if |s| == 10 && s[4] == '-' && s[7] == '-'
       && AllDigits(s[..4]) && AllDigits(s[5..7]) && AllDigits(s[8..]) then
      var d := Date(ParseDigits(s[..4]), ParseDigits(s[5..7]), ParseDigits(s[8..]));
      if ValidDate(d) then Some(d) else None
    else None
  }

  /** Parsing a formatted date gives the date back. */
  lemma IsoRoundTrip(d: Date)
    requires Formattable(d)
    ensures IsoStringToDate(DateToIsoString(d)) == Some(d)
  {
    var s := DateToIsoString(d);
    assert s[..4] == Pad(d.year, 4) && s[5..7] == Pad(d.month, 2) && s[8..] == Pad(d.day, 2);
    ParsePad(d.year, 4);
    ParsePad(d.month, 2);
    ParsePad(d.day, 2);
  }

  /** A string that parses is exactly the formatting of what it parses to. */
  lemma IsoParseRoundTrip(s: string)
    requires IsoStringToDate(s).Some?
    ensures DateToIsoString(IsoStringToDate(s).value) == s
  {
    var d := IsoStringToDate(s).value;
    PadParse(s[..4]);
    PadParse(s[5..7]);
    PadParse(s[8..]);
    assert s == s[..4] + "-" + s[5..7] + "-" + s[8..];
  }

  /** The `date_str` key of a day. */
  function DayKey(n: Day): (s: string)
    requires InPythonRange(n)
    ensures |s| == 10
  {
    FromDayYearBound(n);
    DateToIsoString(FromDay(n))
  }

  /** `date_to_iso_string(dt.date())` for a UTC timestamp: only the day matters. */
  function KeyOfTimestamp(ts: int): string
    requires InPythonRange(DayOf(ts))
  {
    DayKey(DayOf(ts))
  }

  /** Distinct days have distinct keys, so a table keyed by day is one keyed by `date_str`. */
  lemma DayKeyInjective(a: Day, b: Day)
    requires InPythonRange(a) && InPythonRange(b)
    ensures DayKey(a) == DayKey(b) <==> a == b
  {
    if DayKey(a) == DayKey(b) {
      FromDayYearBound(a);
      FromDayYearBound(b);
      IsoRoundTrip(FromDay(a));
      IsoRoundTrip(FromDay(b));
    }
  }

  /** `iso_string_to_date` of a stored key gives back the key's day. */
  lemma DayKeyParses(n: Day)
    requires InPythonRange(n)
    ensures IsoStringToDate(DayKey(n)).Some?
    ensures ToDay(IsoStringToDate(DayKey(n)).value) == n
  {
    FromDayYearBound(n);
    IsoRoundTrip(FromDay(n));
  }

  /** Two timestamps share a key exactly when they fall on the same UTC day. */
  lemma SameDaySameKey(t1: int, t2: int)
    requires InPythonRange(DayOf(t1)) && InPythonRange(DayOf(t2))
    ensures KeyOfTimestamp(t1) == KeyOfTimestamp(t2) <==> DayOf(t1) == DayOf(t2)
  {
    DayKeyInjective(DayOf(t1), DayOf(t2));
  }

  // ---- rows ----

  /** A `daily_ohlcv` row. */
  datatype DailyRow = DailyRow(date: Day, open: real, high: real, low: real, close: real,
                               volume: real, source: string, fetchedAt: int)

  /** The row `store_daily_ohlcv_data` writes for day n at time `now`. */
  function DailyRowOf(n: Day, v: Ohlcv, now: int): (row: DailyRow)
    requires InPythonRange(n)
    ensures row.date == n && row.fetchedAt == now
    ensures Ohlcv(row.open, row.high, row.low, row.close, row.volume, row.source) == v
  {
    DailyRow(n, v.open, v.high, v.low, v.close, v.volume, v.source, now)
  }

  /** A `calculated_indicators` row: the snapshot of one date, flattened into columns. */
  datatype IndicatorRow = IndicatorRow(
    date: Day, priceAtEvent: real,
    rsiMonthly: Option<real>, rsiWeekly: Option<real>,
    stochRsiMonthly: Option<real>, stochRsiWeekly: Option<real>,
    mfiMonthly: Option<real>, mfiWeekly: Option<real>,
    crsiMonthly: Option<real>, crsiWeekly: Option<real>,
    williamsRMonthly: Option<real>, williamsRWeekly: Option<real>,
    rviMonthly: Option<real>, rviWeekly: Option<real>,
    adaptiveRsiMonthly: Option<real>, adaptiveRsiWeekly: Option<real>,
    cosMonthly: real, cosWeekly: real, bsiMonthly: real, bsiWeekly: real,
    outcome1mDirection: Direction, outcome1mPercentage: real, outcome1mPrice: real,
    outcome6mDirection: Direction, outcome6mPercentage: real, outcome6mPrice: real,
    outcome12mDirection: Direction, outcome12mPercentage: real, outcome12mPrice: real,
    calculatedAt: int)

  /** The row `store_full_indicator_set` writes; a missing indicator key becomes NULL. */
  function FlattenSnapshot(n: Day, price: real, m: IndicatorMap, w: IndicatorMap,
                           c: CompositeMetrics, o: Outcomes, now: int): (row: IndicatorRow)
    requires InPythonRange(n)
    ensures row.date == n && row.calculatedAt == now && row.priceAtEvent == price
  {
    IndicatorRow(n, price,
      Get(m, "rsi"), Get(w, "rsi"), Get(m, "stochRsi"), Get(w, "stochRsi"),
      Get(m, "mfi"), Get(w, "mfi"), Get(m, "crsi"), Get(w, "crsi"),
      Get(m, "williamsR"), Get(w, "williamsR"), Get(m, "rvi"), Get(w, "rvi"),
      Get(m, "adaptiveRsi"), Get(w, "adaptiveRsi"),
      c.cosMonthly, c.cosWeekly, c.bsiMonthly, c.bsiWeekly,
      o.oneMonth.direction, o.oneMonth.percentage, o.oneMonth.price,
      o.sixMonths.direction, o.sixMonths.percentage, o.sixMonths.price,
      o.twelveMonths.direction, o.twelveMonths.percentage, o.twelveMonths.price,
      now)
  }

  /** `INSERT OR REPLACE` into a table keyed by day; a failed write leaves it as it was. */
  function Upsert<R>(table: map<Day, R>, n: Day, row: R, writeOk: bool): map<Day, R> {
    if writeOk then table[n := row] else table
  }

  /** A successful upsert makes the new row the only one for its day and leaves other days alone. */
  lemma UpsertThenLookup<R>(table: map<Day, R>, n: Day, row: R, k: Day)
    ensures n in Upsert(table, n, row, true)
    ensures k == n ==> Upsert(table, n, row, true)[k] == row
    ensures k != n ==> (k in Upsert(table, n, row, true) <==> k in table)
    ensures k != n && k in table ==> Upsert(table, n, row, true)[k] == table[k]
  {
  }

  /** A second write for the same day replaces the first. */
  lemma UpsertReplaces<R>(table: map<Day, R>, n: Day, r1: R, r2: R)
    ensures Upsert(Upsert(table, n, r1, true), n, r2, true) == Upsert(table, n, r2, true)
  {
  }

  /** The database file: both tables. */
  class Database {
    var dailyOhlcv: map<Day, DailyRow>
    var calculatedIndicators: map<Day, IndicatorRow>

    /** Every row is stored under the day its `date_str` names. */
    ghost predicate Valid()
      reads this
    {
      (forall n :: n in dailyOhlcv ==> InPythonRange(n) && dailyOhlcv[n].date == n)
      && (forall n :: n in calculatedIndicators ==>
            InPythonRange(n) && calculatedIndicators[n].date == n)
    }

    constructor()
      ensures Valid()
      ensures dailyOhlcv == map[] && calculatedIndicators == map[]
    {
      dailyOhlcv := map[];
      calculatedIndicators := map[];
    }

    /** `store_daily_ohlcv_data`; `writeOk` is false when SQLite raises, which is caught. */
    method StoreDailyOhlcv(ts: int, v: Ohlcv, now: int, writeOk: bool)
      requires Valid() && InPythonRange(DayOf(ts))
      modifies this
      ensures Valid()
      ensures dailyOhlcv == Upsert(old(dailyOhlcv), DayOf(ts), DailyRowOf(DayOf(ts), v, now), writeOk)
      ensures calculatedIndicators == old(calculatedIndicators)
    {
      if writeOk {
        var n := DayOf(ts);
        dailyOhlcv := dailyOhlcv[n := DailyRowOf(n, v, now)];
      }
    }

    /** `get_daily_ohlcv_from_db`: the row of the timestamp's day, if there is one. */
    method GetDailyOhlcv(ts: int) returns (r: Option<DailyRow>)
      ensures r.Some? <==> DayOf(ts) in dailyOhlcv
      ensures r.Some? ==> r.value == dailyOhlcv[DayOf(ts)]
    {
      var n := DayOf(ts);
      if n in dailyOhlcv {
        r := Some(dailyOhlcv[n]);
      } else {
        r := None;
      }
    }

    /** `store_full_indicator_set` */
    method StoreFullIndicatorSet(ts: int, price: real, m: IndicatorMap, w: IndicatorMap,
                                 c: CompositeMetrics, o: Outcomes, now: int, writeOk: bool)
      requires Valid() && InPythonRange(DayOf(ts))
      modifies this
      ensures Valid()
      ensures calculatedIndicators
           == Upsert(old(calculatedIndicators), DayOf(ts), FlattenSnapshot(DayOf(ts), price, m, w, c, o, now), writeOk)
      ensures dailyOhlcv == old(dailyOhlcv)
    {
      if writeOk {
        var n := DayOf(ts);
        calculatedIndicators := calculatedIndicators[n := FlattenSnapshot(n, price, m, w, c, o, now)];
      }
    }

    /** `get_full_indicator_set_from_db` */
    method GetFullIndicatorSet(ts: int) returns (r: Option<IndicatorRow>)
      ensures r.Some? <==> DayOf(ts) in calculatedIndicators
      ensures r.Some? ==> r.value == calculatedIndicators[DayOf(ts)]
    {
      var n := DayOf(ts);
      if n in calculatedIndicators {
        r := Some(calculatedIndicators[n]);
      } else {
        r := None;
      }
    }
  }
}
