/**
 * The monthly analyzer: a month's punches become one record per date (complete
 * with exactly two punches), the month grid is cut into Monday-first weeks with
 * their complete-day counts and hours, and each dimension gets a three-level
 * status.
 */
module AttendanceAnalyzer {
  import opened Wrappers
  import opened Calendar
  import opened Stamps
  import opened Sorting
  import opened Grouping
  import opened Models

  /** Nine hours, in seconds. */
  const FULL_DAY_SECONDS: int := 32400
  const MIN_DAYS: int := 6
  const PARTIAL_DAYS: int := 4

  /** The text of the exception `.date()` raises on a value that is not a datetime. */
  const NOT_A_DATETIME: string := "FECHA_FICHADA has no attribute 'date'"

  // ---------------------------------------------------------------------------
  // Daily records
  // ---------------------------------------------------------------------------

  predicate AllNative(records: seq<Punch>) {
    forall i :: 0 <= i < |records| ==> records[i].stamp.DateTimeValue?
  }

  function TimesOf(records: seq<Punch>): (ts: seq<Timestamp>)
    requires AllNative(records)
    ensures |ts| == |records|
    ensures forall i :: 0 <= i < |records| ==> ts[i] == records[i].stamp.t
  {
    seq(|records|, i requires 0 <= i < |records| => records[i].stamp.t)
  }

  /** The date of an instant, as `.date()` gives it. */
  function DateKey(): Timestamp -> Option<int> {
    (t: Timestamp) => Some(DayOf(t))
  }

  predicate TimeLe(a: Timestamp, b: Timestamp) {
    a <= b
  }

  function HoursOf(seconds: int): real {
    seconds as real / 3600.0
  }

  /**
   * The record of one date from its punches. Two punches make a complete day,
   * from the earlier to the later; one punch is an entry without exit; more
   * than two give neither. The day meets the requirement at nine hours.
   */
  function DayRecord(day: int, punches: seq<Timestamp>): (r: DailyAttendance)
    ensures r.date == Midnight(day)
    ensures r.isComplete <==> |punches| == 2
    ensures |punches| == 2 ==>
      && r.entryTime == Some(Min(punches[0], punches[1]))
      && r.exitTime == Some(Max(punches[0], punches[1]))
      && r.hoursWorked == Some(HoursOf(Max(punches[0], punches[1]) - Min(punches[0], punches[1])))
    ensures |punches| == 1 ==> r.entryTime == Some(punches[0]) && r.exitTime.None? && r.hoursWorked.None?
    ensures |punches| != 1 && |punches| != 2 ==> r.entryTime.None? && r.exitTime.None? && r.hoursWorked.None?
    ensures r.meets9h <==> r.isComplete && r.hoursWorked.Some? && r.hoursWorked.value >= 9.0
  {
    var sorted := SortBy(punches, TimeLe);
    if |sorted| == 2 then
      SortTwo(punches);
      var entry, exit := sorted[0], sorted[1];
      var seconds := exit - entry;
      DailyAttendance(Midnight(day), Some(entry), Some(exit), Some(HoursOf(seconds)), true, seconds >= FULL_DAY_SECONDS)
    else if |sorted| == 1 then
      DailyAttendance(Midnight(day), Some(sorted[0]), None, None, false, false)
    else
      DailyAttendance(Midnight(day), None, None, None, false, false)
  }

  /** Two punches sort to the earlier one, then the later one. */
  lemma SortTwo(punches: seq<Timestamp>)
    requires |punches| == 2
    ensures SortBy(punches, TimeLe) == [Min(punches[0], punches[1]), Max(punches[0], punches[1])]
  {
    var a, b := punches[0], punches[1];
    assert punches[1..] == [b];
    InsertTwo(a, b);
  }

  lemma InsertTwo(a: Timestamp, b: Timestamp)
    ensures Insert(a, SortBy([b], TimeLe), TimeLe) == [Min(a, b), Max(a, b)]
  {
    assert SortBy([b], TimeLe) == [b] by {
      assert [b][1..] == [];
    }
    if a > b {
      assert Insert(a, [b], TimeLe) == [b] + Insert(a, [], TimeLe);
    }
  }

  /** The daily records of a list of instants: one per date that has a punch. */
  function DailyRecords(ts: seq<Timestamp>): map<int, DailyAttendance> {
    var g := GroupBy(ts, DateKey());
    map d | d in g :: DayRecord(d, g[d])
  }

  /**
   * A date has a record exactly when some punch falls on it, and that record is
   * built from the punches of the date, in input order.
   */
  lemma DailyRecordsByDate(ts: seq<Timestamp>, d: int)
    ensures d in DailyRecords(ts) <==> exists i :: 0 <= i < |ts| && DayOf(ts[i]) == d
    ensures d in DailyRecords(ts) ==> DailyRecords(ts)[d] == DayRecord(d, WithKey(ts, DateKey(), d))
    ensures d in DailyRecords(ts) ==> forall t :: t in WithKey(ts, DateKey(), d) ==> DayOf(t) == d
  {
    var key := DateKey();
    GroupByMembers(ts, key, d);
    if exists i :: 0 <= i < |ts| && DayOf(ts[i]) == d {
      var i :| 0 <= i < |ts| && DayOf(ts[i]) == d;
      WithKeyHasDate(ts, ts[i], d);
    }
    if d in DailyRecords(ts) {
      var t := WithKey(ts, key, d)[0];
      assert t in ts && key(t) == Some(d);
      var i :| 0 <= i < |ts| && ts[i] == t;
    }
  }

  lemma WithKeyHasDate(ts: seq<Timestamp>, t: Timestamp, d: int)
    requires t in ts && DayOf(t) == d
    ensures t in WithKey(ts, DateKey(), d)
  {
    WithKeyHas(ts, DateKey(), t);
  }

  /**
   * `_parse_daily_attendance`: groups the punches by date, then builds each
   * date's record from its sorted punches. `.date()` on a value that is not a
   * datetime raises.
   */
  method ParseDailyAttendance(records: seq<Punch>) returns (r: Result<map<int, DailyAttendance>, string>)
    ensures r.Failure? <==> !AllNative(records)
    ensures r.Failure? ==> r.error == NOT_A_DATETIME
    ensures r.Success? ==> r.value == DailyRecords(TimesOf(records))
  {
    var key := DateKey();
    var groups: map<int, seq<Timestamp>> := map[];
    var order: seq<int> := [];
    ghost var ts: seq<Timestamp> := [];
    for i := 0 to |records|
      invariant |ts| == i
      invariant forall k :: 0 <= k < i ==> records[k].stamp.DateTimeValue? && ts[k] == records[k].stamp.t
      invariant groups == GroupBy(ts, key)
      invariant order == KeyOrder(ts, key)
    {
      var stamp := records[i].stamp;
      if !stamp.DateTimeValue? {
        return Failure(NOT_A_DATETIME);
      }
      var t := stamp.t;
      groups, order := FileUnderDate(groups, order, ts, t);
      ts := ts + [t];
    }
    assert ts == TimesOf(records);
    KeyOrderIsListing(ts, key);
    var daily := DailyFromGroups(groups, order);
    return Success(daily);
  }

  /** Appends one punch to the list of its date, opening the list when the date is new. */
  method FileUnderDate(groups: map<int, seq<Timestamp>>, order: seq<int>, ghost ts: seq<Timestamp>, t: Timestamp)
    returns (groups': map<int, seq<Timestamp>>, order': seq<int>)
    requires groups == GroupBy(ts, DateKey()) && order == KeyOrder(ts, DateKey())
    ensures groups' == GroupBy(ts + [t], DateKey()) && order' == KeyOrder(ts + [t], DateKey())
  {
    var date := DayOf(t);
    AppendKeyed(ts, DateKey(), t, date);
    KeyOrderListsKeys(ts, DateKey());
    var current := if date in groups then groups[date] else [];
    groups' := groups[date := current + [t]];
    order' := if date in groups then order else order + [date];
  }

  /** The second pass of `_parse_daily_attendance`: one record per date, from that date's punches. */
  method DailyFromGroups(groups: map<int, seq<Timestamp>>, order: seq<int>) returns (daily: map<int, DailyAttendance>)
    requires ListsKeys(groups, order)
    ensures daily == map d | d in groups :: DayRecord(d, groups[d])
  {
    daily := map[];
    for j := 0 to |order|
      invariant daily == map d | d in order[..j] :: DayRecord(d, groups[d])
    {
      assert order[..j + 1] == order[..j] + [order[j]];
      daily := daily[order[j] := DayRecord(order[j], groups[order[j]])];
    }
    assert order[..|order|] == order;
  }

  // ---------------------------------------------------------------------------
  // Weekly patterns
  // ---------------------------------------------------------------------------

  /** The records, in order, of the listed days of the month that have one. */
  function WeekDetails(daily: map<int, DailyAttendance>, y: int, m: int, days: seq<int>): seq<DailyAttendance>
    requires y >= 1 && 1 <= m <= 12
  {
    if days == [] then []
    else
      var date := Ordinal(y, m, days[|days| - 1]);
      WeekDetails(daily, y, m, days[..|days| - 1]) + (if date in daily then [daily[date]] else [])
  }

  /** The number of complete days among the records. */
  function CompleteDays(details: seq<DailyAttendance>): (n: nat)
    ensures n <= |details|
  {
    if details == [] then 0
    else CompleteDays(details[..|details| - 1]) + (if details[|details| - 1].isComplete then 1 else 0)
  }

  /** The hours of the complete days among the records (`hours_worked or 0`). */
  function CompleteHours(details: seq<DailyAttendance>): real {
    if details == [] then 0.0
    else
      var a := details[|details| - 1];
      CompleteHours(details[..|details| - 1])
        + (if a.isComplete then (match a.hoursWorked case Some(h) => h case None => 0.0) else 0.0)
  }

  /** The number of complete days among the records that meet nine hours. */
  function FullDays(details: seq<DailyAttendance>): (n: nat)
    ensures n <= CompleteDays(details)
  {
    if details == [] then 0
    else
      var a := details[|details| - 1];
      FullDays(details[..|details| - 1]) + (if a.isComplete && a.meets9h then 1 else 0)
  }

  /** The week of one grid row with at least one day of the month. */
  function WeekOf(daily: map<int, DailyAttendance>, y: int, m: int, days: seq<int>): (w: WeeklyPattern)
    requires y >= 1 && 1 <= m <= 12 && days != []
    ensures w.meetsPattern <==> w.daysAttended == 1 || w.daysAttended == 2
  {
    var details := WeekDetails(daily, y, m, days);
    var attended := CompleteDays(details);
    WeeklyPattern(Midnight(Ordinal(y, m, days[0])), Midnight(Ordinal(y, m, days[|days| - 1])),
                  attended, CompleteHours(details), details, attended == 1 || attended == 2)
  }

  /** The weeks of the grid rows that hold a day of the month. */
  function Weeks(daily: map<int, DailyAttendance>, y: int, m: int, rows: seq<seq<int>>): seq<WeeklyPattern>
    requires y >= 1 && 1 <= m <= 12
  {
    if rows == [] then []
    else
      var days := InMonthDays(rows[|rows| - 1]);
      Weeks(daily, y, m, rows[..|rows| - 1]) + (if days == [] then [] else [WeekOf(daily, y, m, days)])
  }

  function WeeklyPatterns(daily: map<int, DailyAttendance>, y: int, m: int): seq<WeeklyPattern>
    requires y >= 1 && 1 <= m <= 12
  {
    Weeks(daily, y, m, MonthCalendar(y, m))
  }

  /**
   * `_analyze_weekly_patterns`: walks the month grid; for each row with a day of
   * the month it collects that week's records and adds up complete days and hours.
   */
  method AnalyzeWeeklyPatterns(daily: map<int, DailyAttendance>, y: int, m: int) returns (patterns: seq<WeeklyPattern>)
    requires y >= 1 && 1 <= m <= 12
    ensures patterns == WeeklyPatterns(daily, y, m)
  {
    var cal := MonthCalendar(y, m);
    patterns := [];
    for k := 0 to |cal|
      invariant patterns == Weeks(daily, y, m, cal[..k])
    {
      assert cal[..k + 1][..k] == cal[..k];
      var daysInCurrentMonth := InMonthDays(cal[k]);
      if daysInCurrentMonth == [] {
        continue;
      }
      var week := AnalyzeWeek(daily, y, m, daysInCurrentMonth);
      patterns := patterns + [week];
    }
    assert cal[..|cal|] == cal;
  }

  /** The body of the grid loop for one row: the week's records, complete days and hours. */
  method AnalyzeWeek(daily: map<int, DailyAttendance>, y: int, m: int, days: seq<int>) returns (week: WeeklyPattern)
    requires y >= 1 && 1 <= m <= 12 && days != []
    ensures week == WeekOf(daily, y, m, days)
  {
    var weekStart := Midnight(Ordinal(y, m, days[0]));
    var weekEnd := Midnight(Ordinal(y, m, days[|days| - 1]));
    var weekDays: seq<DailyAttendance> := [];
    var daysAttended := 0;
    var totalHours := 0.0;
    for j := 0 to |days|
      invariant weekDays == WeekDetails(daily, y, m, days[..j])
      invariant daysAttended == CompleteDays(weekDays)
      invariant totalHours == CompleteHours(weekDays)
    {
      assert days[..j + 1][..j] == days[..j];
      var date := Ordinal(y, m, days[j]);
      if date in daily {
        var attendance := daily[date];
        assert (weekDays + [attendance])[..|weekDays|] == weekDays;
        weekDays := weekDays + [attendance];
        if attendance.isComplete {
          daysAttended := daysAttended + 1;
          totalHours := totalHours + (match attendance.hoursWorked case Some(h) => h case None => 0.0);
        }
      }
    }
    assert days[..|days|] == days;
    var meetsPattern := daysAttended == 1 || daysAttended == 2;
    week := WeeklyPattern(weekStart, weekEnd, daysAttended, totalHours, weekDays, meetsPattern);
  }

  lemma {:induction false} WeeksOfNonEmptyRows(daily: map<int, DailyAttendance>, y: int, m: int, rows: seq<seq<int>>)
    requires y >= 1 && 1 <= m <= 12
    requires forall k :: 0 <= k < |rows| ==> InMonthDays(rows[k]) != []
    ensures |Weeks(daily, y, m, rows)| == |rows|
    ensures forall k :: 0 <= k < |rows| ==> Weeks(daily, y, m, rows)[k] == WeekOf(daily, y, m, InMonthDays(rows[k]))
  {
    if rows != [] {
      WeeksOfNonEmptyRows(daily, y, m, rows[..|rows| - 1]);
    }
  }

  /**
   * One week per row of the month grid, in grid order: each runs from the first
   * to the last day of the month in its row, and meets the pattern exactly with
   * one or two complete days.
   */
  lemma WeeklyPatternsFollowGrid(daily: map<int, DailyAttendance>, y: int, m: int)
    requires y >= 1 && 1 <= m <= 12
    ensures var rows := MonthCalendar(y, m);
      var weeks := WeeklyPatterns(daily, y, m);
      && |weeks| == |rows|
      && forall k :: 0 <= k < |rows| ==>
        var days := InMonthDays(rows[k]);
        && days != []
        && weeks[k].weekStart == Midnight(Ordinal(y, m, days[0]))
        && weeks[k].weekEnd == Midnight(Ordinal(y, m, days[|days| - 1]))
        && weeks[k].daysDetails == WeekDetails(daily, y, m, days)
        && weeks[k].daysAttended == CompleteDays(weeks[k].daysDetails)
        && (weeks[k].meetsPattern <==> weeks[k].daysAttended == 1 || weeks[k].daysAttended == 2)
  {
    MonthCalendarPartitionsMonth(y, m);
    WeeksOfNonEmptyRows(daily, y, m, MonthCalendar(y, m));
  }

  // ---------------------------------------------------------------------------
  // Month totals
  // ---------------------------------------------------------------------------

  function SumDays(weeks: seq<WeeklyPattern>): nat {
    if weeks == [] then 0 else SumDays(weeks[..|weeks| - 1]) + weeks[|weeks| - 1].daysAttended
  }

  function SumHours(weeks: seq<WeeklyPattern>): real {
    if weeks == [] then 0.0 else SumHours(weeks[..|weeks| - 1]) + weeks[|weeks| - 1].totalHours
  }

  lemma {:induction false} WeekDetailsAppend(daily: map<int, DailyAttendance>, y: int, m: int, a: seq<int>, b: seq<int>)
    requires y >= 1 && 1 <= m <= 12
    ensures WeekDetails(daily, y, m, a + b) == WeekDetails(daily, y, m, a) + WeekDetails(daily, y, m, b)
    decreases |b|
  {
    if b != [] {
      assert (a + b)[..|a + b| - 1] == a + b[..|b| - 1];
      WeekDetailsAppend(daily, y, m, a, b[..|b| - 1]);
    } else {
      assert a + b == a;
    }
  }

  lemma {:induction false} CompleteAppend(a: seq<DailyAttendance>, b: seq<DailyAttendance>)
    ensures CompleteDays(a + b) == CompleteDays(a) + CompleteDays(b)
    ensures CompleteHours(a + b) == CompleteHours(a) + CompleteHours(b)
    ensures FullDays(a + b) == FullDays(a) + FullDays(b)
    decreases |b|
  {
    if b != [] {
      assert (a + b)[..|a + b| - 1] == a + b[..|b| - 1];
      CompleteAppend(a, b[..|b| - 1]);
    } else {
      assert a + b == a;
    }
  }

  /** The details of all the weeks, in order. */
  function AllDetails(weeks: seq<WeeklyPattern>): seq<DailyAttendance> {
    if weeks == [] then [] else AllDetails(weeks[..|weeks| - 1]) + weeks[|weeks| - 1].daysDetails
  }

  /** Whether a week's attended days and hours are those of its records. */
  predicate Tallied(w: WeeklyPattern) {
    w.daysAttended == CompleteDays(w.daysDetails) && w.totalHours == CompleteHours(w.daysDetails)
  }

  /** Adding up tallied weeks adds up the complete days and hours of all their records. */
  lemma {:induction false} SumsOfTalliedWeeks(weeks: seq<WeeklyPattern>)
    requires forall k :: 0 <= k < |weeks| ==> Tallied(weeks[k])
    ensures SumDays(weeks) == CompleteDays(AllDetails(weeks))
    ensures SumHours(weeks) == CompleteHours(AllDetails(weeks))
  {
    if weeks != [] {
      var init := weeks[..|weeks| - 1];
      SumsOfTalliedWeeks(init);
      CompleteAppend(AllDetails(init), weeks[|weeks| - 1].daysDetails);
    }
  }

  lemma {:induction false} WeeksTallied(daily: map<int, DailyAttendance>, y: int, m: int, rows: seq<seq<int>>)
    requires y >= 1 && 1 <= m <= 12
    ensures forall k :: 0 <= k < |Weeks(daily, y, m, rows)| ==> Tallied(Weeks(daily, y, m, rows)[k])
  {
    if rows != [] {
      WeeksTallied(daily, y, m, rows[..|rows| - 1]);
    }
  }

  /** The records of the weeks are those of the rows' in-month days, in order. */
  lemma {:induction false} WeeksCoverParts(daily: map<int, DailyAttendance>, y: int, m: int,
                                           rows: seq<seq<int>>, parts: seq<seq<int>>)
    requires y >= 1 && 1 <= m <= 12
    requires |parts| == |rows| && forall k :: 0 <= k < |rows| ==> parts[k] == InMonthDays(rows[k])
    ensures AllDetails(Weeks(daily, y, m, rows)) == WeekDetails(daily, y, m, Concat(parts))
  {
    if rows != [] {
      var init := rows[..|rows| - 1];
      var initParts := parts[..|parts| - 1];
      WeeksCoverParts(daily, y, m, init, initParts);
      var days := parts[|parts| - 1];
      assert days == InMonthDays(rows[|rows| - 1]);
      assert Concat(parts) == Concat(initParts) + days;
      WeekDetailsAppend(daily, y, m, Concat(initParts), days);
      var prev := Weeks(daily, y, m, init);
      if days != [] {
        var w := WeekOf(daily, y, m, days);
        assert Weeks(daily, y, m, rows) == prev + [w];
        assert (prev + [w])[..|prev|] == prev;
        assert AllDetails(prev + [w]) == AllDetails(prev) + WeekDetails(daily, y, m, days);
      } else {
        assert Weeks(daily, y, m, rows) == prev;
        assert Concat(initParts) + days == Concat(initParts);
      }
    }
  }

  lemma WeeksCoverRows(daily: map<int, DailyAttendance>, y: int, m: int, rows: seq<seq<int>>)
    requires y >= 1 && 1 <= m <= 12
    ensures AllDetails(Weeks(daily, y, m, rows))
         == WeekDetails(daily, y, m, Concat(seq(|rows|, k requires 0 <= k < |rows| => InMonthDays(rows[k]))))
    ensures SumDays(Weeks(daily, y, m, rows)) == CompleteDays(AllDetails(Weeks(daily, y, m, rows)))
    ensures SumHours(Weeks(daily, y, m, rows)) == CompleteHours(AllDetails(Weeks(daily, y, m, rows)))
  {
    WeeksCoverParts(daily, y, m, rows, seq(|rows|, k requires 0 <= k < |rows| => InMonthDays(rows[k])));
    WeeksTallied(daily, y, m, rows);
    SumsOfTalliedWeeks(Weeks(daily, y, m, rows));
  }

  /**
   * The month totals are the complete-day count and the hour sum over all the
   * days of the month, since the weeks partition the month.
   */
  lemma MonthTotals(daily: map<int, DailyAttendance>, y: int, m: int)
    requires y >= 1 && 1 <= m <= 12
    ensures var monthDays := WeekDetails(daily, y, m, Range(1, DaysInMonth(y, m) + 1));
      && AllDetails(WeeklyPatterns(daily, y, m)) == monthDays
      && SumDays(WeeklyPatterns(daily, y, m)) == CompleteDays(monthDays)
      && SumHours(WeeklyPatterns(daily, y, m)) == CompleteHours(monthDays)
  {
    MonthCalendarPartitionsMonth(y, m);
    WeeksCoverRows(daily, y, m, MonthCalendar(y, m));
  }

  // ---------------------------------------------------------------------------
  // Three-level status
  // ---------------------------------------------------------------------------

  datatype Evaluation = Evaluation(
    daysCompliance: ComplianceStatus,
    hoursCompliance: ComplianceStatus,
    overallCompliance: ComplianceStatus,
    patternCompliance: bool)

  /** The number of weeks with exactly `n` complete days. */
  function WeeksWith(weeks: seq<WeeklyPattern>, n: nat): (c: nat)
    ensures c <= |weeks|
  {
    if weeks == [] then 0
    else WeeksWith(weeks[..|weeks| - 1], n) + (if weeks[|weeks| - 1].daysAttended == n then 1 else 0)
  }

  /** The number of weeks with more than two complete days. */
  function CrowdedWeeks(weeks: seq<WeeklyPattern>): (c: nat)
    ensures c == 0 <==> forall i :: 0 <= i < |weeks| ==> weeks[i].daysAttended <= 2
  {
    if weeks == [] then 0
    else
      var init := weeks[..|weeks| - 1];
      assert forall i :: 0 <= i < |init| ==> init[i] == weeks[i];
      CrowdedWeeks(init) + (if weeks[|weeks| - 1].daysAttended > 2 then 1 else 0)
  }

  /**
   * `_evaluate_compliance`. Days: 6 or more compliant, 4 or 5 partial. Hours,
   * over the complete days of the weeks: none is non-compliant, all at nine
   * hours compliant, 80% or more partial. Pattern: no week above two days.
   * Overall: compliant when all three hold, non-compliant when days or hours
   * is, partial otherwise.
   */
  function EvaluateCompliance(weeks: seq<WeeklyPattern>, totalDaysAttended: int): (e: Evaluation)
    ensures var valid := CompleteDays(AllDetails(weeks));
      var ok := FullDays(AllDetails(weeks));
      && (e.daysCompliance == Compliant <==> totalDaysAttended >= MIN_DAYS)
      && (e.daysCompliance == Partial <==> PARTIAL_DAYS <= totalDaysAttended < MIN_DAYS)
      && (e.daysCompliance == NonCompliant <==> totalDaysAttended < PARTIAL_DAYS)
      && (e.hoursCompliance == Compliant <==> valid > 0 && ok == valid)
      && (e.hoursCompliance == Partial <==> valid > 0 && ok < valid && 5 * ok >= 4 * valid)
      && (e.hoursCompliance == NonCompliant <==> valid == 0 || 5 * ok < 4 * valid)
      && (e.patternCompliance <==> forall i :: 0 <= i < |weeks| ==> weeks[i].daysAttended <= 2)
      && (e.overallCompliance == Compliant <==>
            e.daysCompliance == Compliant && e.hoursCompliance == Compliant && e.patternCompliance)
      && (e.overallCompliance == NonCompliant <==>
            e.daysCompliance == NonCompliant || e.hoursCompliance == NonCompliant)
      && e.overallCompliance != Warning
  {
    var days :=
      if totalDaysAttended >= MIN_DAYS then Compliant
      else if totalDaysAttended >= PARTIAL_DAYS then Partial
      else NonCompliant;
    var valid := CompleteDays(AllDetails(weeks));
    var ok := FullDays(AllDetails(weeks));
    var hours :=
      if valid == 0 then NonCompliant
      else if ok == valid then Compliant
      else if 5 * ok >= 4 * valid then Partial
      else NonCompliant;
    var pattern := CrowdedWeeks(weeks) == 0;
    var overall :=
      if days == Compliant && hours == Compliant && pattern then Compliant
      else if days == NonCompliant || hours == NonCompliant then NonCompliant
      else Partial;
    Evaluation(days, hours, overall, pattern)
  }

  /** A week above two days alone lowers the overall status to partial, never to non-compliant. */
  lemma PatternAloneGivesPartial(weeks: seq<WeeklyPattern>, totalDaysAttended: int)
    requires EvaluateCompliance(weeks, totalDaysAttended).daysCompliance == Compliant
    requires EvaluateCompliance(weeks, totalDaysAttended).hoursCompliance == Compliant
    requires exists i :: 0 <= i < |weeks| && weeks[i].daysAttended > 2
    ensures EvaluateCompliance(weeks, totalDaysAttended).overallCompliance == Partial
  {
  }

  // ---------------------------------------------------------------------------
  // The month of one employee
  // ---------------------------------------------------------------------------

  /** `analyze_employee_month` as a value; `Failure` is the exception it raises. */
  function MonthAnalysis(fetch: Fetch, employeeId: int, y: int, m: int): (r: Result<MonthlyStats, string>)
    ensures r.Success? ==> r.value.overallCompliance != Warning
  {
    match MonthPeriod(y, m)
    case Failure(e) => Failure(e)
    case Success(period) =>
      match fetch(employeeId, period.0, period.1)
      case Failure(e) => Failure(e)
      case Success(records) =>
        if !AllNative(records) then Failure(NOT_A_DATETIME)
        else
          MonthPeriodCoversMonth(y, m);
          var weeks := WeeklyPatterns(DailyRecords(TimesOf(records)), y, m);
          var totalDays := SumDays(weeks);
          var totalHours := SumHours(weeks);
          var average := if totalDays > 0 then totalHours / totalDays as real else 0.0;
          var e := EvaluateCompliance(weeks, totalDays);
          Success(MonthlyStats(employeeId, y, m, totalDays, totalHours, average, weeks,
                               e.daysCompliance, e.hoursCompliance, e.overallCompliance,
                               WeeksWith(weeks, 1), WeeksWith(weeks, 2), e.patternCompliance))
  }

  /**
   * `analyze_employee_month`: the month's period, its punches, the daily
   * records, the weeks, the totals and the evaluation.
   */
  method AnalyzeEmployeeMonth(fetch: Fetch, employeeId: int, y: int, m: int) returns (r: Result<MonthlyStats, string>)
    ensures r == MonthAnalysis(fetch, employeeId, y, m)
  {
    var period := MonthPeriod(y, m);
    if period.Failure? {
      return Failure(period.error);
    }
    MonthPeriodCoversMonth(y, m);
    var (start, end) := period.value;
    var fetched := fetch(employeeId, start, end);
    if fetched.Failure? {
      return Failure(fetched.error);
    }
    var parsed := ParseDailyAttendance(fetched.value);
    if parsed.Failure? {
      return Failure(parsed.error);
    }
    var weeks := AnalyzeWeeklyPatterns(parsed.value, y, m);
    var totalDays := SumDays(weeks);
    var totalHours := SumHours(weeks);
    var average := if totalDays > 0 then totalHours / totalDays as real else 0.0;
    var e := EvaluateCompliance(weeks, totalDays);
    return Success(MonthlyStats(employeeId, y, m, totalDays, totalHours, average, weeks,
                                e.daysCompliance, e.hoursCompliance, e.overallCompliance,
                                WeeksWith(weeks, 1), WeeksWith(weeks, 2), e.patternCompliance));
  }

  /**
   * The analysis fails exactly when the month has no period, the fetch fails or
   * a punch is not a datetime. Otherwise its totals are the complete days and
   * hours of the month's dates, the average is 0 without complete days, and the
   * overall status is never a warning.
   */
  lemma MonthAnalysisFacts(fetch: Fetch, employeeId: int, y: int, m: int)
    ensures MonthPeriod(y, m).Failure? ==> MonthAnalysis(fetch, employeeId, y, m).Failure?
    ensures MonthPeriod(y, m).Success? ==>
      var (start, end) := MonthPeriod(y, m).value;
      (MonthAnalysis(fetch, employeeId, y, m).Success? <==>
        fetch(employeeId, start, end).Success? && AllNative(fetch(employeeId, start, end).value))
    ensures MonthAnalysis(fetch, employeeId, y, m).Success? ==>
      var s := MonthAnalysis(fetch, employeeId, y, m).value;
      var (start, end) := MonthPeriod(y, m).value;
      var daily := DailyRecords(TimesOf(fetch(employeeId, start, end).value));
      var monthDays := WeekDetails(daily, y, m, Range(1, DaysInMonth(y, m) + 1));
      && s.employeeId == employeeId && s.year == y && s.month == m
      && s.totalDaysAttended == CompleteDays(monthDays)
      && s.totalHoursWorked == CompleteHours(monthDays)
      && (s.totalDaysAttended == 0 ==> s.averageHoursPerDay == 0.0)
      && s.weeksWith1Day == WeeksWith(s.weeklyPatterns, 1)
      && s.weeksWith2Days == WeeksWith(s.weeklyPatterns, 2)
      && s.overallCompliance != Warning
  {
    MonthPeriodCoversMonth(y, m);
    if MonthAnalysis(fetch, employeeId, y, m).Success? {
      var (start, end) := MonthPeriod(y, m).value;
      MonthTotals(DailyRecords(TimesOf(fetch(employeeId, start, end).value)), y, m);
    }
  }
}
