/**
 * Proleptic Gregorian calendar arithmetic as Python's `datetime` and `calendar`
 * modules do it.
 *
 * A timestamp is an integer number of seconds; `DayOf(t)` is the ordinal of its
 * calendar day, numbered as `date.toordinal()` numbers them (0001-01-01 is day 1),
 * so the day with ordinal `d` covers the seconds `[d * 86400, (d + 1) * 86400)`.
 */
module Calendar {
  import opened Wrappers

  type Timestamp = int

  const SECONDS_PER_DAY: int := 86400
  const MIN_YEAR: int := 1
  const MAX_YEAR: int := 9999

  /** The ordinal of the calendar day holding `t` (Python's `t.date().toordinal()`). */
  function DayOf(t: Timestamp): int {
    t / SECONDS_PER_DAY
  }

  /** Midnight at the start of day `d` (Python's `datetime.combine(date, time.min)`). */
  function Midnight(d: int): Timestamp {
    d * SECONDS_PER_DAY
  }

  predicate IsLeapYear(y: int) {
    y % 4 == 0 && (y % 100 != 0 || y % 400 == 0)
  }

  predicate ValidYearMonth(y: int, m: int) {
    MIN_YEAR <= y <= MAX_YEAR && 1 <= m <= 12
  }

  function DaysInMonth(y: int, m: int): (n: int)
    requires 1 <= m <= 12
    ensures 28 <= n <= 31
    ensures m == 2 ==> (n == 29 <==> IsLeapYear(y))
  {
    if m == 2 then (if IsLeapYear(y) then 29 else 28)
    else if m == 4 || m == 6 || m == 9 || m == 11 then 30
    else 31
  }

  predicate ValidDate(y: int, m: int, d: int) {
    ValidYearMonth(y, m) && 1 <= d <= DaysInMonth(y, m)
  }

  /** Days in the months of year `y` before month `m`; `m == 13` gives the year's length. */
  function DaysBeforeMonth(y: int, m: int): (r: int)
    requires 1 <= m <= 13
    ensures 28 * (m - 1) <= r <= 31 * (m - 1)
  {
    if m == 1 then 0 else DaysBeforeMonth(y, m - 1) + DaysInMonth(y, m - 1)
  }

  /** Days in the years before year `y`, counted from 0001-01-01. */
  function DaysBeforeYear(y: int): (r: int)
    requires y >= 1
    ensures 365 * (y - 1) <= r <= 366 * (y - 1)
  {
    var p := y - 1;
    p * 365 + p / 4 - p / 100 + p / 400
  }

  /** Python's `date(y, m, d).toordinal()`. */
  function Ordinal(y: int, m: int, d: int): int
    requires y >= 1 && 1 <= m <= 12
  {
    DaysBeforeYear(y) + DaysBeforeMonth(y, m) + d
  }

  /** Python's `date.weekday()` of the day with ordinal `n`: Monday is 0, Sunday is 6. */
  function Weekday(n: int): (w: int)
    ensures 0 <= w < 7
  {
    (n + 6) % 7
  }

  lemma YearLength(y: int)
    requires y >= 1
    ensures DaysBeforeMonth(y, 13) == if IsLeapYear(y) then 366 else 365
    ensures DaysBeforeYear(y + 1) == DaysBeforeYear(y) + DaysBeforeMonth(y, 13)
  {
    MonthTable(y);
    LeapDays(y);
  }

  /** The months before December add up to 337 days plus February. */
  lemma MonthTable(y: int)
    ensures DaysBeforeMonth(y, 13) == 337 + DaysInMonth(y, 2)
  {
    var feb := DaysInMonth(y, 2);
    assert DaysBeforeMonth(y, 2) == 31;
    assert DaysBeforeMonth(y, 3) == 31 + feb;
    assert DaysBeforeMonth(y, 4) == 62 + feb;
    assert DaysBeforeMonth(y, 5) == 92 + feb;
    assert DaysBeforeMonth(y, 6) == 123 + feb;
    assert DaysBeforeMonth(y, 7) == 153 + feb;
    assert DaysBeforeMonth(y, 8) == 184 + feb;
    assert DaysBeforeMonth(y, 9) == 215 + feb;
    assert DaysBeforeMonth(y, 10) == 245 + feb;
    assert DaysBeforeMonth(y, 11) == 276 + feb;
    assert DaysBeforeMonth(y, 12) == 306 + feb;
  }

  /** A year adds 366 days to the count when it is a leap year, 365 otherwise. */
  lemma LeapDays(y: int)
    requires y >= 1
    ensures DaysBeforeYear(y + 1) == DaysBeforeYear(y) + if IsLeapYear(y) then 366 else 365
  {
    LeapCorrections(y);
    assert DaysBeforeYear(y + 1) - DaysBeforeYear(y)
        == 365 + (y / 4 - (y - 1) / 4) - (y / 100 - (y - 1) / 100) + (y / 400 - (y - 1) / 400);
  }

  /** The three leap-year corrections add one day exactly in a leap year. */
  lemma LeapCorrections(y: int)
    ensures var (d4, d100, d400) := (y / 4 - (y - 1) / 4, y / 100 - (y - 1) / 100, y / 400 - (y - 1) / 400);
      d4 - d100 + d400 == if IsLeapYear(y) then 1 else 0
  {
    LeapStep4(y);
    LeapStep100(y);
    LeapStep400(y);
  }

  // Stepping from `y - 1` to `y` raises `y / k` exactly when `k` divides `y`.

  lemma LeapStep4(y: int)
    ensures y / 4 - (y - 1) / 4 == if y % 4 == 0 then 1 else 0
  {
  }

  lemma LeapStep100(y: int)
    ensures y / 100 - (y - 1) / 100 == if y % 100 == 0 then 1 else 0
  {
  }

  lemma LeapStep400(y: int)
    ensures y / 400 - (y - 1) / 400 == if y % 400 == 0 then 1 else 0
  {
  }

  /** The first of the month following (y, m) is `DaysInMonth(y, m)` days after the first of (y, m). */
  lemma NextMonthOrdinal(y: int, m: int)
    requires y >= 1 && 1 <= m <= 12
    ensures m < 12 ==> Ordinal(y, m + 1, 1) == Ordinal(y, m, 1) + DaysInMonth(y, m)
    ensures m == 12 ==> Ordinal(y + 1, 1, 1) == Ordinal(y, m, 1) + DaysInMonth(y, m)
  {
    YearLength(y);
  }

  lemma {:induction false} OrdinalWithinYear(y: int, m: int, d: int)
    requires y >= 1 && 1 <= m <= 12 && 1 <= d <= DaysInMonth(y, m)
    ensures DaysBeforeYear(y) + DaysBeforeMonth(y, m) < Ordinal(y, m, d) <= DaysBeforeYear(y) + DaysBeforeMonth(y, m + 1)
    ensures DaysBeforeYear(y) < Ordinal(y, m, d) <= DaysBeforeYear(y + 1)
  {
    YearLength(y);
    DaysBeforeMonthMonotone(y, m + 1, 13);
  }

  lemma {:induction false} DaysBeforeMonthMonotone(y: int, m: int, n: int)
    requires 1 <= m <= n <= 13
    ensures DaysBeforeMonth(y, m) + 28 * (n - m) <= DaysBeforeMonth(y, n)
  {
    if m < n {
      DaysBeforeMonthMonotone(y, m, n - 1);
    }
  }

  lemma {:induction false} DaysBeforeYearMonotone(a: int, b: int)
    requires 1 <= a <= b
    ensures DaysBeforeYear(a) + 365 * (b - a) <= DaysBeforeYear(b)
  {
    if a < b {
      DaysBeforeYearMonotone(a, b - 1);
      YearLength(b - 1);
    }
  }

  // ---------------------------------------------------------------------------
  // From an ordinal back to (year, month, day), as `date.fromordinal` does.

  function YearFrom(n: int, y: int): (r: int)
    requires 1 <= y && DaysBeforeYear(y) < n
    ensures y <= r && DaysBeforeYear(r) < n <= DaysBeforeYear(r + 1)
    decreases n - DaysBeforeYear(y)
  {
    YearLength(y);
    if n <= DaysBeforeYear(y + 1) then y else YearFrom(n, y + 1)
  }

  function MonthFrom(y: int, k: int, m: int): (r: int)
    requires y >= 1 && 1 <= m <= 12
    requires DaysBeforeMonth(y, m) < k <= DaysBeforeMonth(y, 13)
    ensures m <= r <= 12 && DaysBeforeMonth(y, r) < k <= DaysBeforeMonth(y, r + 1)
    decreases 12 - m
  {
    if k <= DaysBeforeMonth(y, m + 1) then m else MonthFrom(y, k, m + 1)
  }

  /** The calendar date of the day with ordinal `n >= 1`. */
  function DateOf(n: int): (ymd: (int, int, int))
    requires n >= 1
    ensures ymd.0 >= 1 && 1 <= ymd.1 <= 12 && 1 <= ymd.2 <= DaysInMonth(ymd.0, ymd.1)
    ensures Ordinal(ymd.0, ymd.1, ymd.2) == n
  {
    var y := YearFrom(n, 1);
    YearLength(y);
    var k := n - DaysBeforeYear(y);
    var m := MonthFrom(y, k, 1);
    (y, m, k - DaysBeforeMonth(y, m))
  }

  lemma {:induction false} SameYear(a: int, b: int, n: int)
    requires 1 <= a && 1 <= b
    requires DaysBeforeYear(a) < n <= DaysBeforeYear(a + 1)
    requires DaysBeforeYear(b) < n <= DaysBeforeYear(b + 1)
    ensures a == b
  {
    if a < b {
      DaysBeforeYearMonotone(a + 1, b);
    } else if b < a {
      DaysBeforeYearMonotone(b + 1, a);
    }
  }

  lemma {:induction false} SameMonth(y: int, a: int, b: int, k: int)
    requires 1 <= a <= 12 && 1 <= b <= 12
    requires DaysBeforeMonth(y, a) < k <= DaysBeforeMonth(y, a + 1)
    requires DaysBeforeMonth(y, b) < k <= DaysBeforeMonth(y, b + 1)
    ensures a == b
  {
    if a < b {
      DaysBeforeMonthMonotone(y, a + 1, b);
    } else if b < a {
      DaysBeforeMonthMonotone(y, b + 1, a);
    }
  }

  /** `DateOf` inverts `Ordinal`: a valid date is recovered from its ordinal. */
  lemma {:induction false} DateOfOrdinal(y: int, m: int, d: int)
    requires y >= 1 && 1 <= m <= 12 && 1 <= d <= DaysInMonth(y, m)
    ensures DateOf(Ordinal(y, m, d)) == (y, m, d)
  {
    var n := Ordinal(y, m, d);
    var r := DateOf(n);
    OrdinalWithinYear(y, m, d);
    OrdinalWithinYear(r.0, r.1, r.2);
    SameYear(y, r.0, n);
    SameMonth(y, m, r.1, n - DaysBeforeYear(y));
  }

  // ---------------------------------------------------------------------------
  // Month periods (analyze_employee_month) and the month grid (calendar.monthcalendar).

  /**
   * The first second and the last second of month (y, m): from the first of the month
   * at 00:00:00 to one second before the first of the next month. Constructing a
   * `datetime` outside years 1..9999 or months 1..12 raises, and so does the first of
   * the month after December 9999.
   */
  function MonthPeriod(y: int, m: int): Result<(Timestamp, Timestamp), string> {
    if !(MIN_YEAR <= y <= MAX_YEAR) then Failure("year is out of range")
    else if !(1 <= m <= 12) then Failure("month must be in 1..12")
    else if m == 12 then
      if y + 1 > MAX_YEAR then Failure("year is out of range")
      else Success((Midnight(Ordinal(y, m, 1)), Midnight(Ordinal(y + 1, 1, 1)) - 1))
    else Success((Midnight(Ordinal(y, m, 1)), Midnight(Ordinal(y, m + 1, 1)) - 1))
  }

  /**
   * The period of a month covers exactly the seconds of its days; December's end is
   * one second before the first of January of the next year.
   */
  lemma MonthPeriodCoversMonth(y: int, m: int)
    ensures MonthPeriod(y, m).Success? <==> ValidYearMonth(y, m) && !(y == MAX_YEAR && m == 12)
    ensures MonthPeriod(y, m).Success? ==>
      var (start, end) := MonthPeriod(y, m).value;
      var first := Ordinal(y, m, 1);
      && start == Midnight(first)
      && end == start + DaysInMonth(y, m) * SECONDS_PER_DAY - 1
      && (m == 12 ==> end + 1 == Midnight(Ordinal(y + 1, 1, 1)))
      && (forall t :: start <= t <= end <==> first <= DayOf(t) < first + DaysInMonth(y, m))
  {
    if MonthPeriod(y, m).Success? {
      NextMonthOrdinal(y, m);
    }
  }

  /** The day numbers 1..7 of a calendar row, with 0 for days outside the month. */
  function CalendarRow(firstWeekday: int, dim: int, k: int): (row: seq<int>)
    ensures |row| == 7
  {
    seq(7, p => var d := 7 * k + p - firstWeekday + 1; if 1 <= d <= dim then d else 0)
  }

  /**
   * Python's `calendar.monthcalendar(y, m)` with Monday as the first weekday: the
   * weeks of the month grid, each a row of seven day numbers, 0 outside the month.
   */
  function MonthCalendar(y: int, m: int): seq<seq<int>>
    requires y >= 1 && 1 <= m <= 12
  {
    var wd := Weekday(Ordinal(y, m, 1));
    var dim := DaysInMonth(y, m);
    seq((wd + dim + 6) / 7, k => CalendarRow(wd, dim, k))
  }

  /** The nonzero entries of a calendar row, in order (`[day for day in week if day != 0]`). */
  function InMonthDays(row: seq<int>): seq<int> {
    if row == [] then []
    else (if row[0] != 0 then [row[0]] else []) + InMonthDays(row[1..])
  }

  /** The integers lo, lo+1, ..., hi-1. */
  function Range(lo: int, hi: int): (r: seq<int>)
    requires lo <= hi
    ensures |r| == hi - lo
    ensures forall i :: 0 <= i < |r| ==> r[i] == lo + i
  {
    seq(hi - lo, i => lo + i)
  }

  /** The concatenation of a sequence of rows, first to last. */
  function Concat(rows: seq<seq<int>>): seq<int> {
    if rows == [] then [] else Concat(rows[..|rows| - 1]) + rows[|rows| - 1]
  }

  lemma {:induction false} InMonthDaysAppend(a: seq<int>, b: seq<int>)
    ensures InMonthDays(a + b) == InMonthDays(a) + InMonthDays(b)
  {
    if a != [] {
      var head := if a[0] != 0 then [a[0]] else [];
      assert (a + b)[0] == a[0];
      assert (a + b)[1..] == a[1..] + b;
      InMonthDaysAppend(a[1..], b);
      calc {
        InMonthDays(a + b);
        head + InMonthDays(a[1..] + b);
        head + (InMonthDays(a[1..]) + InMonthDays(b));
        (head + InMonthDays(a[1..])) + InMonthDays(b);
      }
    } else {
      assert a + b == b;
    }
  }

  lemma {:induction false} InMonthDaysOfZeros(n: nat)
    ensures InMonthDays(seq(n, _ => 0)) == []
  {
    if n > 0 {
      assert seq(n, _ => 0)[1..] == seq(n - 1, _ => 0);
      InMonthDaysOfZeros(n - 1);
    }
  }

  lemma {:induction false} InMonthDaysOfRange(lo: int, hi: int)
    requires 1 <= lo <= hi
    ensures InMonthDays(Range(lo, hi)) == Range(lo, hi)
    decreases hi - lo
  {
    if lo < hi {
      assert Range(lo, hi)[1..] == Range(lo + 1, hi);
      InMonthDaysOfRange(lo + 1, hi);
    }
  }

  function Max(a: int, b: int): int { if a >= b then a else b }
  function Min(a: int, b: int): int { if a <= b then a else b }

  /** Row k of the grid holds the in-month days max(1, 7k-wd+1) .. min(dim, 7k-wd+7), and at least one. */
  lemma RowInMonthDays(wd: int, dim: int, k: int)
    requires 0 <= wd < 7 && 28 <= dim && 0 <= k < (wd + dim + 6) / 7
    ensures Max(1, 7 * k - wd + 1) <= Min(dim, 7 * k - wd + 7)
    ensures InMonthDays(CalendarRow(wd, dim, k)) == Range(Max(1, 7 * k - wd + 1), Min(dim, 7 * k - wd + 7) + 1)
  {
    var lo, hi := Max(1, 7 * k - wd + 1), Min(dim, 7 * k - wd + 7);
    var a := lo - (7 * k - wd + 1);
    var row := CalendarRow(wd, dim, k);
    assert row == seq(a, _ => 0) + Range(lo, hi + 1) + seq(7 - a - (hi + 1 - lo), _ => 0);
    InMonthDaysAppend(seq(a, _ => 0) + Range(lo, hi + 1), seq(7 - a - (hi + 1 - lo), _ => 0));
    InMonthDaysAppend(seq(a, _ => 0), Range(lo, hi + 1));
    InMonthDaysOfZeros(a);
    InMonthDaysOfZeros(7 - a - (hi + 1 - lo));
    InMonthDaysOfRange(lo, hi + 1);
  }

  lemma {:induction false} ConcatRowsUpTo(wd: int, dim: int, rows: seq<seq<int>>, k: nat)
    requires 0 <= wd < 7 && 28 <= dim
    requires |rows| == (wd + dim + 6) / 7
    requires forall j :: 0 <= j < |rows| ==> rows[j] == InMonthDays(CalendarRow(wd, dim, j))
    requires 1 <= k <= |rows|
    ensures Concat(rows[..k]) == Range(1, Min(dim, 7 * (k - 1) - wd + 7) + 1)
  {
    RowInMonthDays(wd, dim, k - 1);
    assert rows[..k][..k - 1] == rows[..k - 1];
    if k > 1 {
      ConcatRowsUpTo(wd, dim, rows, k - 1);
      RowInMonthDays(wd, dim, k - 2);
    }
  }

  /**
   * The in-month days of the grid's rows, taken in order, are exactly 1, 2, ...,
   * DaysInMonth(y, m): the weeks partition the month without gaps or overlaps, and no
   * row is without an in-month day.
   */
  lemma MonthCalendarPartitionsMonth(y: int, m: int)
    requires y >= 1 && 1 <= m <= 12
    ensures var rows := MonthCalendar(y, m);
      && 4 <= |rows| <= 6
      && (forall k :: 0 <= k < |rows| ==> |rows[k]| == 7 && InMonthDays(rows[k]) != [])
      && Concat(seq(|rows|, k requires 0 <= k < |rows| => InMonthDays(rows[k]))) == Range(1, DaysInMonth(y, m) + 1)
  {
    var rows := MonthCalendar(y, m);
    var wd := Weekday(Ordinal(y, m, 1));
    var dim := DaysInMonth(y, m);
    var days := seq(|rows|, k requires 0 <= k < |rows| => InMonthDays(rows[k]));
    forall k | 0 <= k < |rows| ensures InMonthDays(rows[k]) != [] {
      RowInMonthDays(wd, dim, k);
    }
    ConcatRowsUpTo(wd, dim, days, |rows|);
    assert days[..|rows|] == days;
  }
}
