/**
 * `check_data_gaps` in scripts/db_checker.py: which days between a start and an
 * end day have no row in the daily price table, reported as maximal runs of
 * consecutive missing days together with the number of missing days. The range
 * defaults to the earliest and latest stored days; an empty table only yields a
 * suggested download range.
 */
module DbChecker {
  import opened Wrappers
  import opened Calendar
  import DbUtils

  /** An inclusive run of consecutive days, `(start, end)` in `gap_blocks`. */
  datatype Gap = Gap(first: Day, last: Day)

  /** `(end - start).days + 1`. */
  function Length(g: Gap): int {
    g.last - g.first + 1
  }

  /** What one call reports, in place of its log lines. */
  datatype Report =
    | EmptyStore(suggestion: Option<Gap>)
    | BadDateFormat
    | InvalidRange(start: Day, end: Day)
    | Checked(start: Day, end: Day, missing: nat, gaps: seq<Gap>)

  /** Python truthiness of an optional string argument: None and "" are both absent. */
  predicate Given(arg: Option<string>) {
    arg.Some? && arg.value != ""
  }

  /** `strptime(s, "%Y-%m-%d").date()` as a day number, None where it raises ValueError. */
  function ParseDay(s: string): Option<Day> {
    match DbUtils.IsoStringToDate(s)
    case Some(d) => Some(ToDay(d))
    case None => None
  }

  /** One end of the checked range: the parsed argument, or the stored default when absent. */
  function Bound(arg: Option<string>, default: Day): Option<Day> {
    if Given(arg) then ParseDay(arg.value) else Some(default)
  }

  /** The download range suggested for an empty table. */
  function EmptySuggestion(startArg: Option<string>, endArg: Option<string>, generateCommands: bool): Option<Gap> {
    if Given(startArg) && Given(endArg) && generateCommands then
      match (ParseDay(startArg.value), ParseDay(endArg.value))
      case (Some(s), Some(e)) => if s <= e then Some(Gap(s, e)) else None
      case _ => None
    else None
  }

  // ---- the earliest and latest stored day ----

  lemma {:induction false} ExtremesExist(s: set<Day>)
    requires s != {}
    ensures exists m :: m in s && forall x :: x in s ==> m <= x
    ensures exists m :: m in s && forall x :: x in s ==> x <= m
    decreases |s|
  {
    var y :| y in s;
    if s != {y} {
      var rest := s - {y};
      ExtremesExist(rest);
      var lo :| lo in rest && forall x :: x in rest ==> lo <= x;
      var hi :| hi in rest && forall x :: x in rest ==> x <= hi;
      var m1 := if y < lo then y else lo;
      var m2 := if y > hi then y else hi;
      assert forall x :: x in s ==> x == y || x in rest;
      assert m1 in s && forall x :: x in s ==> m1 <= x;
      assert m2 in s && forall x :: x in s ==> x <= m2;
    } else {
      assert forall x :: x in s ==> x == y;
    }
  }

  /** `min(existing_dates)`. */
  function Earliest(s: set<Day>): (m: Day)
    requires s != {}
    ensures m in s && forall x :: x in s ==> m <= x
  {
    ExtremesExist(s);
    var m :| m in s && forall x :: x in s ==> m <= x; m
  }

  /** `max(existing_dates)`. */
  function Latest(s: set<Day>): (m: Day)
    requires s != {}
    ensures m in s && forall x :: x in s ==> x <= m
  {
    ExtremesExist(s);
    var m :| m in s && forall x :: x in s ==> x <= m; m
  }

  // ---- what a correct gap report is ----

  /** The number of days in lo .. hi that have no row. */
  function CountMissing(existing: set<Day>, lo: Day, hi: Day): nat
    decreases hi - lo
  {
    if hi < lo then 0 else CountMissing(existing, lo, hi - 1) + (if hi in existing then 0 else 1)
  }

  predicate AllMissing(existing: set<Day>, a: Day, b: Day) {
    forall d :: a <= d <= b ==> d !in existing
  }

  /** A run inside start .. end of missing days that cannot be extended at either end. */
  predicate Maximal(existing: set<Day>, start: Day, end: Day, g: Gap) {
    start <= g.first <= g.last <= end
    && AllMissing(existing, g.first, g.last)
    && (g.first == start || g.first - 1 in existing)
    && (g.last == end || g.last + 1 in existing)
  }

  /** Runs in ascending order, each separated from the next by at least one stored day. */
  predicate Ordered(gaps: seq<Gap>) {
    forall i, j :: 0 <= i < j < |gaps| ==> gaps[i].last + 1 < gaps[j].first
  }

  predicate Covered(gaps: seq<Gap>, d: Day) {
    exists i :: 0 <= i < |gaps| && gaps[i].first <= d <= gaps[i].last
  }

  /** The gap report of start .. end: maximal runs, in order, covering every missing day. */
  predicate GapReport(existing: set<Day>, start: Day, end: Day, gaps: seq<Gap>) {
    (forall i :: 0 <= i < |gaps| ==> Maximal(existing, start, end, gaps[i]))
    && Ordered(gaps)
    && (forall d :: start <= d <= end && d !in existing ==> Covered(gaps, d))
  }

  /** The days the runs add up to. */
  function TotalLength(gaps: seq<Gap>): int {
    if gaps == [] then 0 else TotalLength(gaps[..|gaps| - 1]) + Length(gaps[|gaps| - 1])
  }

  lemma CoverAppend(gaps: seq<Gap>, g: Gap, d: Day)
    requires Covered(gaps, d) || g.first <= d <= g.last
    ensures Covered(gaps + [g], d)
  {
    if Covered(gaps, d) {
      var i :| 0 <= i < |gaps| && gaps[i].first <= d <= gaps[i].last;
      assert (gaps + [g])[i] == gaps[i];
    } else {
      assert (gaps + [g])[|gaps|] == g;
    }
  }

  lemma AppendTotal(gaps: seq<Gap>, g: Gap)
    ensures TotalLength(gaps + [g]) == TotalLength(gaps) + Length(g)
  {
    assert (gaps + [g])[..|gaps|] == gaps;
  }

  // ---- the scan ----

  /** The runs the scan has closed after visiting start .. d - 1, and the one still open. */
  predicate ScannedRuns(existing: set<Day>, start: Day, end: Day, d: Day, gaps: seq<Gap>, open: Option<Day>) {
    start <= d <= end + 1
    && (forall i :: 0 <= i < |gaps| ==> Maximal(existing, start, end, gaps[i]))
    && Ordered(gaps) && (forall i :: 0 <= i < |gaps| ==> gaps[i].last + 1 < d)
    && (open.None? ==> d == start || d - 1 in existing)
    && (open.Some? ==>
          start <= open.value < d && AllMissing(existing, open.value, d - 1)
          && (open.value == start || open.value - 1 in existing)
          && forall i :: 0 <= i < |gaps| ==> gaps[i].last + 1 < open.value)
    && (forall x :: start <= x < d && x !in existing ==> Covered(gaps, x) || (open.Some? && open.value <= x))
  }

  /** The missing days counted after visiting start .. d - 1, split between closed runs and the open one. */
  predicate ScannedCount(existing: set<Day>, start: Day, d: Day, missing: nat, gaps: seq<Gap>, open: Option<Day>) {
    missing == CountMissing(existing, start, d - 1)
    && TotalLength(gaps) + (if open.Some? then d - open.value else 0) == missing
  }

  /** Visiting a missing day opens a run unless one is open. */
  lemma MissingStep(existing: set<Day>, start: Day, end: Day, d: Day, gaps: seq<Gap>, open: Option<Day>)
    requires ScannedRuns(existing, start, end, d, gaps, open) && d <= end && d !in existing
    ensures ScannedRuns(existing, start, end, d + 1, gaps, if open.None? then Some(d) else open)
  {
  }

  /** Visiting a stored day with no run open changes nothing but the day. */
  lemma StoredStep(existing: set<Day>, start: Day, end: Day, d: Day, gaps: seq<Gap>)
    requires ScannedRuns(existing, start, end, d, gaps, None) && d <= end && d in existing
    ensures ScannedRuns(existing, start, end, d + 1, gaps, None)
  {
  }

  /** Visiting a stored day closes the open run at the day before it. */
  lemma CloseStep(existing: set<Day>, start: Day, end: Day, d: Day, gaps: seq<Gap>, open: Day)
    requires ScannedRuns(existing, start, end, d, gaps, Some(open)) && d <= end && d in existing
    ensures ScannedRuns(existing, start, end, d + 1, gaps + [Gap(open, d - 1)], None)
  {
    var g := Gap(open, d - 1);
    var gs := gaps + [g];
    forall x | start <= x < d + 1 && x !in existing
      ensures Covered(gs, x)
    {
      CoverAppend(gaps, g, x);
    }
    assert Maximal(existing, start, end, g);
    assert forall i :: 0 <= i < |gs| ==> Maximal(existing, start, end, gs[i]) by {
      forall i | 0 <= i < |gs| ensures Maximal(existing, start, end, gs[i]) {
        if i < |gaps| { assert gs[i] == gaps[i]; }
      }
    }
    assert Ordered(gs) by {
      forall i, j | 0 <= i < j < |gs| ensures gs[i].last + 1 < gs[j].first {
        assert gs[i] == gaps[i];
        if j < |gaps| { assert gs[j] == gaps[j]; }
      }
    }
  }

  /** The count after visiting day d: one more when d is missing, and the runs' share follows. */
  lemma CountStep(existing: set<Day>, start: Day, d: Day, missing: nat, gaps: seq<Gap>, open: Option<Day>)
    requires ScannedCount(existing, start, d, missing, gaps, open) && start <= d
    requires open.Some? ==> open.value <= d
    ensures d !in existing ==>
              ScannedCount(existing, start, d + 1, missing + 1, gaps, if open.None? then Some(d) else open)
    ensures d in existing && open.Some? ==>
              ScannedCount(existing, start, d + 1, missing, gaps + [Gap(open.value, d - 1)], None)
    ensures d in existing && open.None? ==> ScannedCount(existing, start, d + 1, missing, gaps, None)
  {
    if open.Some? {
      AppendTotal(gaps, Gap(open.value, d - 1));
    }
  }

  /** At the end of the range an open run is closed at the last day. */
  lemma FinishScan(existing: set<Day>, start: Day, end: Day, missing: nat, gaps: seq<Gap>, open: Option<Day>)
    requires ScannedRuns(existing, start, end, end + 1, gaps, open)
    requires ScannedCount(existing, start, end + 1, missing, gaps, open)
    ensures var gaps' := if open.Some? then gaps + [Gap(open.value, end)] else gaps;
            missing == CountMissing(existing, start, end)
            && GapReport(existing, start, end, gaps') && TotalLength(gaps') == missing
  {
    if open.Some? {
      AppendTotal(gaps, Gap(open.value, end));
      CloseAtEnd(existing, start, end, gaps, open.value);
    }
  }

  /** The run still open after the last day, closed there, completes the report. */
  lemma CloseAtEnd(existing: set<Day>, start: Day, end: Day, gaps: seq<Gap>, open: Day)
    requires ScannedRuns(existing, start, end, end + 1, gaps, Some(open))
    ensures GapReport(existing, start, end, gaps + [Gap(open, end)])
  {
    var g := Gap(open, end);
    var gs := gaps + [g];
    forall x | start <= x <= end && x !in existing
      ensures Covered(gs, x)
    {
      CoverAppend(gaps, g, x);
    }
    assert Maximal(existing, start, end, g);
    assert forall i :: 0 <= i < |gs| ==> Maximal(existing, start, end, gs[i]) by {
      forall i | 0 <= i < |gs| ensures Maximal(existing, start, end, gs[i]) {
        if i < |gaps| { assert gs[i] == gaps[i]; }
      }
    }
    assert Ordered(gs) by {
      forall i, j | 0 <= i < j < |gs| ensures gs[i].last + 1 < gs[j].first {
        assert gs[i] == gaps[i];
        if j < |gaps| { assert gs[j] == gaps[j]; }
      }
    }
  }

  /** The `while current_iter_date <= check_end_date` loop and the closing of a run still open at the end. */
  method FindGaps(existing: set<Day>, start: Day, end: Day) returns (missing: nat, gaps: seq<Gap>)
    requires start <= end
    ensures missing == CountMissing(existing, start, end)
    ensures GapReport(existing, start, end, gaps)
    ensures TotalLength(gaps) == missing
  {
    var d := start;
    missing, gaps := 0, [];
    var open: Option<Day> := None;
    while d <= end
      invariant ScannedRuns(existing, start, end, d, gaps, open)
      invariant ScannedCount(existing, start, d, missing, gaps, open)
      decreases end - d
    {
      CountStep(existing, start, d, missing, gaps, open);
      if d !in existing {
        MissingStep(existing, start, end, d, gaps, open);
        missing := missing + 1;
        if open.None? {
          open := Some(d);
        }
      } else if open.Some? {
        CloseStep(existing, start, end, d, gaps, open.value);
        gaps := gaps + [Gap(open.value, d - 1)];
        open := None;
      } else {
        StoredStep(existing, start, end, d, gaps);
      }
      d := d + 1;
    }
    FinishScan(existing, start, end, missing, gaps, open);
    if open.Some? {
      gaps := gaps + [Gap(open.value, end)];
    }
  }

  /** `check_data_gaps` over the days stored in `db`. */
  method CheckDataGaps(db: DbUtils.Database, startArg: Option<string>, endArg: Option<string>, generateCommands: bool)
    returns (r: Report)
    ensures r.EmptyStore? <==> db.dailyOhlcv == map[]
    ensures r.EmptyStore? ==> r.suggestion == EmptySuggestion(startArg, endArg, generateCommands)
    ensures db.dailyOhlcv != map[] ==>
              var s := Bound(startArg, Earliest(db.dailyOhlcv.Keys));
              var e := Bound(endArg, Latest(db.dailyOhlcv.Keys));
              (r.BadDateFormat? <==> s.None? || e.None?)
              && (r.InvalidRange? <==> s.Some? && e.Some? && s.value > e.value)
              && (r.Checked? ==> s == Some(r.start) && e == Some(r.end))
    ensures r.Checked? ==>
              r.start <= r.end && r.missing == CountMissing(db.dailyOhlcv.Keys, r.start, r.end)
              && GapReport(db.dailyOhlcv.Keys, r.start, r.end, r.gaps)
              && TotalLength(r.gaps) == r.missing
  {
    var existing := db.dailyOhlcv.Keys;
    if db.dailyOhlcv == map[] {
      return EmptyStore(EmptySuggestion(startArg, endArg, generateCommands));
    }
    assert Earliest(existing) in existing;
    var s := Bound(startArg, Earliest(existing));
    var e := Bound(endArg, Latest(existing));
    if s.None? || e.None? {
      return BadDateFormat;
    }
    if s.value > e.value {
      return InvalidRange(s.value, e.value);
    }
    var missing, gaps := FindGaps(existing, s.value, e.value);
    r := Checked(s.value, e.value, missing, gaps);
  }

  // ---- properties ----

  /** The empty-table suggestion exists exactly when both ends are given, parse and are in order; it spans `(e - s) + 1` days. */
  lemma SuggestionMeaning(startArg: Option<string>, endArg: Option<string>, generateCommands: bool)
    ensures EmptySuggestion(startArg, endArg, generateCommands).Some? <==>
              generateCommands && Given(startArg) && Given(endArg)
              && ParseDay(startArg.value).Some? && ParseDay(endArg.value).Some?
              && ParseDay(startArg.value).value <= ParseDay(endArg.value).value
    ensures EmptySuggestion(startArg, endArg, generateCommands).Some? ==>
              var g := EmptySuggestion(startArg, endArg, generateCommands).value;
              g.first == ParseDay(startArg.value).value && g.last == ParseDay(endArg.value).value
              && Length(g) >= 1
  {
  }

  /** Without arguments the check covers exactly the stored span. */
  lemma DefaultRangeIsStoredSpan(existing: set<Day>)
    requires existing != {}
    ensures Bound(None, Earliest(existing)) == Some(Earliest(existing))
    ensures Bound(Some(""), Latest(existing)) == Some(Latest(existing))
    ensures Earliest(existing) <= Latest(existing)
  {
  }

  /** No run is reported exactly when no day of the range is missing. */
  lemma {:induction false} NoGapsIffComplete(existing: set<Day>, start: Day, end: Day, gaps: seq<Gap>)
    requires GapReport(existing, start, end, gaps)
    ensures gaps == [] <==> CountMissing(existing, start, end) == 0
  {
    if gaps == [] {
      NothingMissingCountsZero(existing, start, end);
    } else {
      assert Maximal(existing, start, end, gaps[0]);
      MissingDayCounts(existing, start, end, gaps[0].first);
    }
  }

  lemma {:induction false} NothingMissingCountsZero(existing: set<Day>, lo: Day, hi: Day)
    requires forall d :: lo <= d <= hi ==> d in existing
    ensures CountMissing(existing, lo, hi) == 0
    decreases hi - lo
  {
    if hi >= lo {
      NothingMissingCountsZero(existing, lo, hi - 1);
    }
  }

  lemma {:induction false} MissingDayCounts(existing: set<Day>, lo: Day, hi: Day, d: Day)
    requires lo <= d <= hi && d !in existing
    ensures CountMissing(existing, lo, hi) >= 1
    decreases hi - lo
  {
    if d < hi {
      MissingDayCounts(existing, lo, hi - 1, d);
    }
  }

  /** The first run starts at the first missing day of the range. */
  lemma FirstRunStarts(existing: set<Day>, start: Day, end: Day, gaps: seq<Gap>, d: Day)
    requires GapReport(existing, start, end, gaps) && gaps != []
    requires start <= d <= end && d !in existing
    ensures gaps[0].first <= d
  {
    var i :| 0 <= i < |gaps| && gaps[i].first <= d <= gaps[i].last;
    if i > 0 {
      assert gaps[0].last + 1 < gaps[i].first;
      assert Maximal(existing, start, end, gaps[0]);
    }
  }

  /** What is left of a report after its first run, as a report of the days after that run. */
  lemma TailReport(existing: set<Day>, start: Day, end: Day, gaps: seq<Gap>)
    requires GapReport(existing, start, end, gaps) && gaps != []
    ensures GapReport(existing, gaps[0].last + 1, end, gaps[1..])
  {
    var t := gaps[1..];
    var s' := gaps[0].last + 1;
    forall i | 0 <= i < |t|
      ensures Maximal(existing, s', end, t[i])
    {
      assert t[i] == gaps[i + 1];
      assert gaps[0].last + 1 < gaps[i + 1].first;
      assert Maximal(existing, start, end, gaps[i + 1]);
    }
    forall d | s' <= d <= end && d !in existing
      ensures Covered(t, d)
    {
      assert Maximal(existing, start, end, gaps[0]);
      var i :| 0 <= i < |gaps| && gaps[i].first <= d <= gaps[i].last;
      assert i != 0;
      assert t[i - 1] == gaps[i];
    }
  }

  /** Two runs that both start at a and are maximal end at the same day. */
  lemma SameEnd(existing: set<Day>, start: Day, end: Day, g1: Gap, g2: Gap)
    requires Maximal(existing, start, end, g1) && Maximal(existing, start, end, g2)
    requires g1.first == g2.first
    ensures g1.last == g2.last
  {
  }

  /** Two reports of the same range are empty together. */
  lemma EmptyTogether(existing: set<Day>, start: Day, end: Day, g1: seq<Gap>, g2: seq<Gap>)
    requires GapReport(existing, start, end, g1) && GapReport(existing, start, end, g2)
    ensures g1 == [] <==> g2 == []
  {
    NoGapsIffComplete(existing, start, end, g1);
    NoGapsIffComplete(existing, start, end, g2);
  }

  /** Two non-empty reports of the same range begin with the same run. */
  lemma SameFirstRun(existing: set<Day>, start: Day, end: Day, g1: seq<Gap>, g2: seq<Gap>)
    requires GapReport(existing, start, end, g1) && GapReport(existing, start, end, g2)
    requires g1 != [] && g2 != []
    ensures g1[0] == g2[0]
  {
    assert Maximal(existing, start, end, g1[0]) && Maximal(existing, start, end, g2[0]);
    FirstRunStarts(existing, start, end, g1, g2[0].first);
    FirstRunStarts(existing, start, end, g2, g1[0].first);
    SameEnd(existing, start, end, g1[0], g2[0]);
  }

  /** A gap report is unique: the scan's result is the only correct answer. */
  lemma {:induction false} GapReportUnique(existing: set<Day>, start: Day, end: Day, g1: seq<Gap>, g2: seq<Gap>)
    requires GapReport(existing, start, end, g1) && GapReport(existing, start, end, g2)
    ensures g1 == g2
    decreases |g1| + |g2|
  {
    EmptyTogether(existing, start, end, g1, g2);
    if g1 != [] {
      SameFirstRun(existing, start, end, g1, g2);
      TailReport(existing, start, end, g1);
      TailReport(existing, start, end, g2);
      GapReportUnique(existing, g1[0].last + 1, end, g1[1..], g2[1..]);
      assert g1 == [g1[0]] + g1[1..] && g2 == [g2[0]] + g2[1..];
    }
  }
}
