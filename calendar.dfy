/**
 * The proleptic Gregorian calendar as Python's `datetime.date` implements it.
 * A day is counted from 1970-01-01 (UTC); a date converts to and from that count
 * through Python's ordinal (0001-01-01 has ordinal 1). Timestamps are whole
 * seconds since the epoch.
 */
module Calendar {

  /** A calendar day as a number of days since 1970-01-01. */
  type Day = int

  const SecondsPerDay: int := 86400
  /** `date(1970, 1, 1).toordinal()` */
  const EpochOrdinal: int := 719163
  /** `date.min` (0001-01-01) and `date.max` (9999-12-31) as day numbers. */
  const MinDay: Day := 1 - EpochOrdinal
  const MaxDay: Day := 2932896

  datatype Date = Date(year: int, month: int, day: int)

  predicate IsLeapYear(y: int) {
    y % 4 == 0 && (y % 100 != 0 || y % 400 == 0)
  }

  function DaysInMonth(y: int, m: int): int
    requires 1 <= m <= 12
  {
    if m == 2 then (if IsLeapYear(y) then 29 else 28)
    else if m == 4 || m == 6 || m == 9 || m == 11 then 30
    else 31
  }

  function DaysInYear(y: int): int {
    if IsLeapYear(y) then 366 else 365
  }

  /** A date Python can represent, years above 9999 aside (they matter only to formatting). */
  predicate ValidDate(d: Date) {
    1 <= d.year && 1 <= d.month <= 12 && 1 <= d.day <= DaysInMonth(d.year, d.month)
  }

  /** A day number inside Python's `date.min` .. `date.max`. */
  predicate InPythonRange(n: Day) {
    MinDay <= n <= MaxDay
  }

  /** Days in the years 1 .. y-1 (Python's `_days_before_year`). */
  function DaysBeforeYear(y: int): int
    requires y >= 1
  {
    var p := y - 1;
    365 * p + p / 4 - p / 100 + p / 400
  }

  /** Days in the months 1 .. m-1 of year y; m = 13 gives the whole year. */
  function DaysBeforeMonth(y: int, m: int): int
    requires 1 <= m <= 13
  {
    var common :=
      if m == 1 then 0 else if m == 2 then 31 else if m == 3 then 59
      else if m == 4 then 90 else if m == 5 then 120 else if m == 6 then 151
      else if m == 7 then 181 else if m == 8 then 212 else if m == 9 then 243
      else if m == 10 then 273 else if m == 11 then 304 else if m == 12 then 334
      else 365;
    common + (if m > 2 && IsLeapYear(y) then 1 else 0)
  }

  /** Python's `date.toordinal()`. */
  function Ordinal(d: Date): int
    requires ValidDate(d)
  {
    DaysBeforeYear(d.year) + DaysBeforeMonth(d.year, d.month) + d.day
  }

  /** The day number of a date. */
  function ToDay(d: Date): Day
    requires ValidDate(d)
  {
    Ordinal(d) - EpochOrdinal
  }

  /** Strict lexicographic order on (year, month, day). */
  predicate Before(a: Date, b: Date) {
    a.year < b.year
    || (a.year == b.year && a.month < b.month)
    || (a.year == b.year && a.month == b.month && a.day < b.day)
  }

  // ---- arithmetic facts behind the closed forms ----

  lemma MulAtLeast(k: int, t: int)
    requires k > 0 && t >= 1
    ensures k * t >= k
  {
    assert k * t == k + k * (t - 1);
  }

  lemma DivModUnique(a: int, k: int, q: int, r: int)
    requires k > 0 && a == k * q + r && 0 <= r < k
    ensures a / k == q && a % k == r
  {
    var q', r' := a / k, a % k;
    assert k * q' + r' == k * q + r;
    assert k * (q - q') == r' - r;
    if q > q' {
      MulAtLeast(k, q - q');
    } else if q < q' {
      MulAtLeast(k, q' - q);
    }
  }

  lemma DivStep(p: int, k: int)
    requires p >= 0 && k > 0
    ensures (p + 1) / k - p / k == if (p + 1) % k == 0 then 1 else 0
  {
    var q, r := p / k, p % k;
    assert p == k * q + r && 0 <= r < k;
    if r == k - 1 {
      DivModUnique(p + 1, k, q + 1, 0);
    } else {
      DivModUnique(p + 1, k, q, r + 1);
    }
  }

  lemma DivisibilityChain(y: int)
    ensures y % 400 == 0 ==> y % 100 == 0
    ensures y % 100 == 0 ==> y % 4 == 0
  {
    if y % 400 == 0 {
      assert y == 400 * (y / 400);
      assert y == 100 * (4 * (y / 400));
    }
    if y % 100 == 0 {
      assert y == 100 * (y / 100);
      assert y == 4 * (25 * (y / 100));
    }
  }

  lemma {:induction false} DaysBeforeNextYear(y: int)
    requires y >= 1
    ensures DaysBeforeYear(y + 1) == DaysBeforeYear(y) + DaysInYear(y)
  {
    var p := y - 1;
    DivStep(p, 4);
    DivStep(p, 100);
    DivStep(p, 400);
    DivisibilityChain(y);
  }

  lemma {:induction false} DaysBeforeYearMonotone(y1: int, y2: int)
    requires 1 <= y1 <= y2
    ensures DaysBeforeYear(y1) + 365 * (y2 - y1) <= DaysBeforeYear(y2)
    decreases y2 - y1
  {
    if y1 < y2 {
      DaysBeforeNextYear(y1);
      DaysBeforeYearMonotone(y1 + 1, y2);
    }
  }

  lemma DaysBeforeNextMonth(y: int, m: int)
    requires 1 <= m <= 12
    ensures DaysBeforeMonth(y, m + 1) == DaysBeforeMonth(y, m) + DaysInMonth(y, m)
    ensures DaysBeforeMonth(y, 13) == DaysInYear(y)
  {
  }

  lemma {:induction false} DaysBeforeMonthMonotone(y: int, m1: int, m2: int)
    requires 1 <= m1 <= m2 <= 13
    ensures DaysBeforeMonth(y, m1) <= DaysBeforeMonth(y, m2)
    decreases m2 - m1
  {
    if m1 < m2 {
      DaysBeforeNextMonth(y, m1);
      DaysBeforeMonthMonotone(y, m1 + 1, m2);
    }
  }

  /** The ordinal of a date stays inside its year. */
  lemma OrdinalWithinYear(d: Date)
    requires ValidDate(d)
    ensures DaysBeforeYear(d.year) < Ordinal(d) <= DaysBeforeYear(d.year + 1)
  {
    DaysBeforeNextMonth(d.year, d.month);
    DaysBeforeMonthMonotone(d.year, d.month + 1, 13);
    DaysBeforeNextYear(d.year);
  }

  /** The ordinal is strictly increasing in calendar order. */
  lemma {:induction false} OrdinalIncreasing(a: Date, b: Date)
    requires ValidDate(a) && ValidDate(b) && Before(a, b)
    ensures Ordinal(a) < Ordinal(b)
  {
    if a.year < b.year {
      OrdinalWithinYear(a);
      OrdinalWithinYear(b);
      DaysBeforeYearMonotone(a.year + 1, b.year);
    } else if a.month < b.month {
      DaysBeforeNextMonth(a.year, a.month);
      DaysBeforeMonthMonotone(a.year, a.month + 1, b.month);
    }
  }

  lemma OrdinalInjective(a: Date, b: Date)
    requires ValidDate(a) && ValidDate(b) && Ordinal(a) == Ordinal(b)
    ensures a == b
  {
    if Before(a, b) {
      OrdinalIncreasing(a, b);
    } else if Before(b, a) {
      OrdinalIncreasing(b, a);
    }
  }

  // ---- from a day number back to a date ----

  /** The year holding ordinal n, found by walking up from year y. */
  function YearSearch(n: int, y: int): (r: int)
    requires y >= 1 && DaysBeforeYear(y) < n
    ensures r >= y && DaysBeforeYear(r) < n <= DaysBeforeYear(r + 1)
    decreases n - DaysBeforeYear(y)
  {
    DaysBeforeNextYear(y);
    if n <= DaysBeforeYear(y + 1) then y else YearSearch(n, y + 1)
  }

  /** The date whose day of year is r, found by walking up from month m. */
  function MonthSearch(y: int, r: int, m: int): (d: Date)
    requires y >= 1 && 1 <= m <= 12 && DaysBeforeMonth(y, m) < r <= DaysInYear(y)
    ensures ValidDate(d) && d.year == y && DaysBeforeMonth(y, d.month) + d.day == r
    decreases 12 - m
  {
    DaysBeforeNextMonth(y, m);
    if r <= DaysBeforeMonth(y, m + 1) then Date(y, m, r - DaysBeforeMonth(y, m))
    else MonthSearch(y, r, m + 1)
  }

  /** Python's `date.fromordinal(n)`. */
  function FromOrdinal(n: int): (d: Date)
    requires n >= 1
    ensures ValidDate(d) && Ordinal(d) == n
  {
    var p := (n - 1) / 366;
    assert DaysBeforeYear(p + 1) <= 366 * p;
    var y := YearSearch(n, p + 1);
    DaysBeforeNextYear(y);
    MonthSearch(y, n - DaysBeforeYear(y), 1)
  }

  /** The calendar date of a day number. */
  function FromDay(n: Day): (d: Date)
    requires n >= MinDay
    ensures ValidDate(d) && ToDay(d) == n
  {
    FromOrdinal(n + EpochOrdinal)
  }

  /** Day numbers and dates are in one-to-one correspondence. */
  lemma DateRoundTrip(d: Date)
    requires ValidDate(d)
    ensures ToDay(d) >= MinDay
    ensures FromDay(ToDay(d)) == d
  {
    OrdinalWithinYear(d);
    assert DaysBeforeYear(d.year) >= 0;
    OrdinalInjective(FromDay(ToDay(d)), d);
  }

  /** Calendar order and day order agree. */
  lemma ToDayOrder(a: Date, b: Date)
    requires ValidDate(a) && ValidDate(b)
    ensures Before(a, b) <==> ToDay(a) < ToDay(b)
  {
    if Before(a, b) {
      OrdinalIncreasing(a, b);
    } else if Before(b, a) {
      OrdinalIncreasing(b, a);
    } else {
      assert a == b;
    }
  }

  /** Inside Python's range a day's year has at most four digits. */
  lemma FromDayYearBound(n: Day)
    requires InPythonRange(n)
    ensures 1 <= FromDay(n).year <= 9999
  {
    var last := Date(9999, 12, 31);
    var d := FromDay(n);
    assert ToDay(last) == MaxDay;
    ToDayOrder(last, d);
  }

  // ---- timestamps ----

  /** `datetime.fromtimestamp(ts, tz=timezone.utc).date()` as a day number (floor division). */
  function DayOf(ts: int): Day {
    ts / SecondsPerDay
  }

  /** The timestamp of 00:00:00 UTC on day n. */
  function DayStart(n: Day): int {
    n * SecondsPerDay
  }

  /** `dt.replace(hour=0, minute=0, second=0, microsecond=0)` for a UTC timestamp. */
  function Midnight(ts: int): (m: int)
    ensures DayOf(m) == DayOf(ts)
    ensures m <= ts < m + SecondsPerDay
  {
    DayStart(DayOf(ts))
  }

  /** A timestamp falls on day n exactly when it lies in that day's 86400 seconds. */
  lemma DayOfBounds(ts: int, n: Day)
    ensures DayOf(ts) == n <==> DayStart(n) <= ts < DayStart(n) + SecondsPerDay
  {
  }

  // ---- month arithmetic ----

  /**
   * `pd.Timestamp(d) + pd.DateOffset(months=k)`: move k calendar months forward,
   * keeping the day of month unless the target month is shorter.
   */
  function AddMonths(d: Date, k: nat): (r: Date)
    requires ValidDate(d)
    ensures ValidDate(r)
    ensures r.year * 12 + r.month == d.year * 12 + d.month + k
    ensures r.day <= d.day
  {
    var total := d.year * 12 + (d.month - 1) + k;
    var y, m := total / 12, total % 12 + 1;
    var last := DaysInMonth(y, m);
    Date(y, m, if d.day <= last then d.day else last)
  }

  /** A horizon of one or more months lands strictly later than its anchor. */
  lemma AddMonthsLater(d: Date, k: nat)
    requires ValidDate(d) && k >= 1
    ensures ToDay(AddMonths(d, k)) > ToDay(d)
  {
    var r := AddMonths(d, k);
    assert Before(d, r);
    ToDayOrder(d, r);
  }

  /** The day of month is kept exactly when the target month is long enough. */
  lemma AddMonthsKeepsDay(d: Date, k: nat)
    requires ValidDate(d)
    ensures var r := AddMonths(d, k);
            (r.day == d.day <==> d.day <= DaysInMonth(r.year, r.month))
            && (r.day < d.day ==> r.day == DaysInMonth(r.year, r.month))
  {
  }
}
