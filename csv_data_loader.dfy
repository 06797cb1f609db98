/**
 * The bundled CSV history (backend/csv_data_loader.py). Rows of every CSV file
 * are cleaned of non-numeric fields, their timestamps are normalised to
 * midnight, and the concatenation is de-duplicated on the timestamp, keeping
 * the first row, and sorted; a lookup then answers one calendar day.
 */
module CsvDataLoader {
  import opened Wrappers
  import opened Calendar
  import opened Records

  /** One CSV line after `pd.to_numeric(..., errors='coerce')`: None where the field is not a number. */
  datatype RawRow = RawRow(timestamp: Option<int>, open: Option<real>, high: Option<real>,
                           low: Option<real>, close: Option<real>, volume: Option<real>)

  /** A CSV file: its lines, or Unreadable when reading or converting it raised. */
  datatype CsvFile = Unreadable | Parsed(rows: seq<RawRow>)

  /** A row of the loaded frame: its index timestamp and its values. */
  datatype CsvRow = CsvRow(ts: int, open: real, high: real, low: real, close: real, volume: real)

  /** The row survives `dropna` on the six numeric columns. */
  predicate Numeric(r: RawRow) {
    r.timestamp.Some? && r.open.Some? && r.high.Some? && r.low.Some? && r.close.Some? && r.volume.Some?
  }

  /** A timestamp at 00:00:00 UTC. */
  predicate AtMidnight(ts: int) {
    ts == Midnight(ts)
  }

  /** `pd.to_datetime(unit='s', utc=True).dt.normalize()` applied to one numeric row. */
  function Normalize(r: RawRow): (c: CsvRow)
    requires Numeric(r)
    ensures AtMidnight(c.ts) && DayOf(c.ts) == DayOf(r.timestamp.value)
  {
    CsvRow(Midnight(r.timestamp.value), r.open.value, r.high.value, r.low.value, r.close.value, r.volume.value)
  }

  /** The rows of one file after `dropna` and normalisation, in file order. */
  function Clean(rows: seq<RawRow>): (out: seq<CsvRow>)
    ensures forall i :: 0 <= i < |out| ==> AtMidnight(out[i].ts)
  {
    if |rows| == 0 then []
    else
      var r := rows[|rows| - 1];
      Clean(rows[..|rows| - 1]) + (if Numeric(r) then [Normalize(r)] else [])
  }

  /** A cleaned row is the normalisation of a numeric input row. */
  lemma {:induction false} CleanFromNumeric(rows: seq<RawRow>, k: nat)
    requires k < |Clean(rows)|
    ensures exists i :: 0 <= i < |rows| && Numeric(rows[i]) && Clean(rows)[k] == Normalize(rows[i])
  {
    var n := |rows|;
    var init := rows[..n - 1];
    if k < |Clean(init)| {
      CleanFromNumeric(init, k);
      var i :| 0 <= i < |init| && Numeric(init[i]) && Clean(init)[k] == Normalize(init[i]);
      assert rows[i] == init[i];
    } else {
      assert Clean(rows)[k] == Normalize(rows[n - 1]);
    }
  }

  /** A numeric input row is kept. */
  lemma {:induction false} CleanKeepsNumeric(rows: seq<RawRow>, i: nat)
    requires i < |rows| && Numeric(rows[i])
    ensures Normalize(rows[i]) in Clean(rows)
  {
    var n := |rows|;
    var init := rows[..n - 1];
    if i < n - 1 {
      assert init[i] == rows[i];
      CleanKeepsNumeric(init, i);
    }
  }

  /** `all_dfs` concatenated: the cleaned rows of every readable file, in file order. */
  function Gathered(files: seq<CsvFile>): (out: seq<CsvRow>)
    ensures forall i :: 0 <= i < |out| ==> AtMidnight(out[i].ts)
  {
    if |files| == 0 then []
    else
      var f := files[|files| - 1];
      Gathered(files[..|files| - 1]) + (if f.Parsed? then Clean(f.rows) else [])
  }

  // ---- the index: drop_duplicates(keep first) then sort_index ----

  predicate Increasing(s: seq<CsvRow>) {
    forall i, j :: 0 <= i < j < |s| ==> s[i].ts < s[j].ts
  }

  /** `df.loc[t]`: the row whose index is t. */
  function Find(s: seq<CsvRow>, t: int): (r: Option<CsvRow>)
    ensures r.Some? ==> r.value in s && r.value.ts == t
    ensures r.None? ==> forall i :: 0 <= i < |s| ==> s[i].ts != t
  {
    if |s| == 0 then None
    else if s[0].ts == t then Some(s[0])
    else Find(s[1..], t)
  }

  /** The first of `rows` whose timestamp is t. */
  function FirstAt(rows: seq<CsvRow>, t: int): (r: Option<CsvRow>)
    ensures r.Some? ==> r.value.ts == t
  {
    if |rows| == 0 then None
    else
      var p := FirstAt(rows[..|rows| - 1], t);
      if p.Some? then p
      else if rows[|rows| - 1].ts == t then Some(rows[|rows| - 1])
      else None
  }

  /** Place r in the increasing frame unless its timestamp is already there. */
  function InsertNew(r: CsvRow, idx: seq<CsvRow>): (s: seq<CsvRow>)
    requires Increasing(idx)
    ensures Increasing(s)
    ensures forall i :: 0 <= i < |s| ==> s[i] == r || s[i] in idx
    ensures forall t :: Find(s, t) == if Find(idx, t).Some? then Find(idx, t) else if r.ts == t then Some(r) else None
  {
    if |idx| == 0 then [r]
    else if r.ts < idx[0].ts then
      assert forall t :: Find([r] + idx, t) == if r.ts == t then Some(r) else Find(idx, t) by {
        assert ([r] + idx)[1..] == idx;
      }
      [r] + idx
    else if r.ts == idx[0].ts then idx
    else
      var rest := InsertNew(r, idx[1..]);
      var s := [idx[0]] + rest;
      assert s[1..] == rest;
      assert forall i :: 0 <= i < |rest| ==> rest[i].ts > idx[0].ts by {
        forall i | 0 <= i < |rest| ensures rest[i].ts > idx[0].ts {
          if rest[i] != r {
            var k :| 0 <= k < |idx[1..]| && idx[1..][k] == rest[i];
            assert idx[k + 1] == rest[i];
          }
        }
      }
      s
  }

  /** The frame indexed by timestamp: each timestamp once, with its first row, ascending. */
  function Index(rows: seq<CsvRow>): (s: seq<CsvRow>)
    ensures Increasing(s)
    ensures forall i :: 0 <= i < |s| ==> s[i] in rows
  {
    if |rows| == 0 then []
    else
      var init := rows[..|rows| - 1];
      var s := InsertNew(rows[|rows| - 1], Index(init));
      assert forall x :: x in init ==> x in rows;
      s
  }

  /** The indexed row for timestamp t is the first loaded row with that timestamp. */
  lemma {:induction false} IndexKeepsFirst(rows: seq<CsvRow>, t: int)
    ensures Find(Index(rows), t) == FirstAt(rows, t)
  {
    if |rows| > 0 {
      IndexKeepsFirst(rows[..|rows| - 1], t);
    }
  }

  /** The loaded frame `self.df` of a list of CSV files. */
  function Frame(files: seq<CsvFile>): (df: seq<CsvRow>)
    ensures Increasing(df)
    ensures forall i :: 0 <= i < |df| ==> AtMidnight(df[i].ts)
  {
    var g := Gathered(files);
    var df := Index(g);
    assert forall i :: 0 <= i < |df| ==> df[i] in g;
    df
  }

  // ---- get_ohlcv_for_date ----

  /** The first frame row falling on day `target` (`df[df.index.date == target].iloc[0]`). */
  function FirstOnDay(s: seq<CsvRow>, target: Day): (r: Option<CsvRow>)
    ensures r.Some? ==> r.value in s && DayOf(r.value.ts) == target
  {
    if |s| == 0 then None
    else if DayOf(s[0].ts) == target then Some(s[0])
    else FirstOnDay(s[1..], target)
  }

  function Values(row: CsvRow, source: string): Ohlcv {
    Ohlcv(row.open, row.high, row.low, row.close, row.volume, source)
  }

  /** `get_ohlcv_for_date` on a frame and its date range. */
  function Lookup(df: seq<CsvRow>, minDate: Option<Day>, maxDate: Option<Day>, ts: int): (r: Option<Ohlcv>)
    ensures r.Some? ==> |df| > 0
    ensures r.Some? && minDate.Some? && maxDate.Some? ==> minDate.value <= DayOf(ts) <= maxDate.value
    ensures r.Some? ==> r.value.source == "csv_exact" || r.value.source == "csv_day_match"
  {
    if |df| == 0 then None
    else
      var target := DayOf(ts);
      if minDate.Some? && maxDate.Some? && !(minDate.value <= target <= maxDate.value) then None
      else
        match Find(df, Midnight(ts))
        case Some(row) => Some(Values(row, "csv_exact"))
        case None =>
          match FirstOnDay(df, target)
          case Some(row) => Some(Values(row, "csv_day_match"))
          case None => None
  }

  /** On a frame of midnight timestamps, a row on the day is the row at its midnight. */
  lemma {:induction false} DayMatchIsExact(s: seq<CsvRow>, target: Day)
    requires forall i :: 0 <= i < |s| ==> AtMidnight(s[i].ts)
    ensures FirstOnDay(s, target) == Find(s, DayStart(target))
  {
    if |s| > 0 {
      assert DayOf(s[0].ts) == target <==> s[0].ts == DayStart(target);
      DayMatchIsExact(s[1..], target);
    }
  }

  /**
   * The `csv_day_match` fallback never answers: the index holds only midnight
   * timestamps, so a day with any row has one at its midnight, which the exact
   * lookup finds first.
   */
  lemma DayMatchUnreachable(files: seq<CsvFile>, minDate: Option<Day>, maxDate: Option<Day>, ts: int)
    ensures var r := Lookup(Frame(files), minDate, maxDate, ts);
            r.Some? ==> r.value.source == "csv_exact"
  {
    DayMatchIsExact(Frame(files), DayOf(ts));
  }

  /**
   * Inside the loaded range, the answer for a day is the first row any file
   * holds for that day, and there is none exactly when no file has a numeric
   * row on that day.
   */
  lemma LookupIsFirstRowOfDay(files: seq<CsvFile>, ts: int)
    requires |Frame(files)| > 0
    ensures var df := Frame(files);
            var r := Lookup(df, Some(DayOf(df[0].ts)), Some(DayOf(df[|df| - 1].ts)), ts);
            var first := FirstAt(Gathered(files), Midnight(ts));
            DayOf(df[0].ts) <= DayOf(ts) <= DayOf(df[|df| - 1].ts) ==>
              (r.Some? <==> first.Some?) && (first.Some? ==> r == Some(Values(first.value, "csv_exact")))
  {
    var df := Frame(files);
    IndexKeepsFirst(Gathered(files), Midnight(ts));
    DayMatchIsExact(df, DayOf(ts));
  }

  /** `CSVDataLoader`: the loaded frame and its first and last dates. */
  class Loader {
    var df: seq<CsvRow>
    var minDate: Option<Day>
    var maxDate: Option<Day>

    /** `__init__` and `_load_all_csvs`: gather the cleaned rows of every file, then index them. */
    constructor(files: seq<CsvFile>)
      ensures df == Frame(files)
      ensures |df| == 0 ==> minDate.None? && maxDate.None?
      ensures |df| > 0 ==> minDate == Some(DayOf(df[0].ts)) && maxDate == Some(DayOf(df[|df| - 1].ts))
    {
      var allRows: seq<CsvRow> := [];
      for i := 0 to |files|
        invariant allRows == Gathered(files[..i])
      {
        assert files[..i + 1][..i] == files[..i];
        var f := files[i];
        if f.Unreadable? || |f.rows| == 0 {
          continue;
        }
        var cleaned := Clean(f.rows);
        if |cleaned| == 0 {
          continue;
        }
        allRows := allRows + cleaned;
      }
      assert files[..|files|] == files;
      var frame := Index(allRows);
      df := frame;
      if |frame| > 0 {
        minDate := Some(DayOf(frame[0].ts));
        maxDate := Some(DayOf(frame[|frame| - 1].ts));
      } else {
        minDate := None;
        maxDate := None;
      }
    }

    /** `get_ohlcv_for_date`: the range check, the exact-index lookup, then the same-day scan. */
    method GetOhlcvForDate(ts: int) returns (r: Option<Ohlcv>)
      ensures r == Lookup(df, minDate, maxDate, ts)
    {
      if |df| == 0 {
        return None;
      }
      var target := DayOf(ts);
      if minDate.Some? && maxDate.Some? && !(minDate.value <= target <= maxDate.value) {
        return None;
      }
      var dayStart := Midnight(ts);
      var i := 0;
      while i < |df| && df[i].ts != dayStart
        invariant 0 <= i <= |df|
        invariant Find(df, dayStart) == Find(df[i..], dayStart)
      {
        assert df[i..][1..] == df[i + 1..];
        i := i + 1;
      }
      if i < |df| {
        return Some(Values(df[i], "csv_exact"));
      }
      var j := 0;
      while j < |df| && DayOf(df[j].ts) != target
        invariant 0 <= j <= |df|
        invariant FirstOnDay(df, target) == FirstOnDay(df[j..], target)
      {
        assert df[j..][1..] == df[j + 1..];
        j := j + 1;
      }
      if j < |df| {
        return Some(Values(df[j], "csv_day_match"));
      }
      r := None;
    }
  }
}
