/**
 * The report layer over the monthly analyzer: the monthly compliance report,
 * the data-quality issue list, the dashboard counts, an employee's trend over
 * recent months and the per-department statistics.
 */
module Reports {
  import opened Wrappers
  import opened Calendar
  import opened Text
  import opened Sorting
  import opened Grouping
  import opened Models
  import opened AttendanceAnalyzer

  // ---------------------------------------------------------------------------
  // Monthly compliance report
  // ---------------------------------------------------------------------------

  /** The `compliance_summary` counters. */
  datatype Summary = Summary(compliant: nat, partial: nat, nonCompliant: nat, warning: nat)

  datatype EmployeeStat = EmployeeStat(employeeInfo: EmployeeRow, stats: MonthlyStats)

  datatype MonthlyReport = MonthlyReport(
    year: int,
    month: int,
    totalEmployees: nat,
    complianceSummary: Summary,
    employeeStats: seq<EmployeeStat>)

  /** The counter named by a status, plus one. */
  function Tally(s: Summary, status: ComplianceStatus): Summary {
    match status
    case Compliant => s.(compliant := s.compliant + 1)
    case Partial => s.(partial := s.partial + 1)
    case NonCompliant => s.(nonCompliant := s.nonCompliant + 1)
    case Warning => s.(warning := s.warning + 1)
  }

  /** The number of employees whose month analysis raises. */
  function Failures(fetch: Fetch, employees: seq<EmployeeRow>, y: int, m: int): (n: nat)
    ensures n <= |employees|
  {
    if employees == [] then 0
    else
      var e := employees[|employees| - 1];
      Failures(fetch, employees[..|employees| - 1], y, m)
        + (if MonthAnalysis(fetch, e.id, y, m).Failure? then 1 else 0)
  }

  /** The summary after the employees, first to last; a failed analysis counts as a warning. */
  function SummaryOf(fetch: Fetch, employees: seq<EmployeeRow>, y: int, m: int): Summary {
    if employees == [] then Summary(0, 0, 0, 0)
    else
      var prev := SummaryOf(fetch, employees[..|employees| - 1], y, m);
      match MonthAnalysis(fetch, employees[|employees| - 1].id, y, m)
      case Success(s) => Tally(prev, s.overallCompliance)
      case Failure(_) => prev.(warning := prev.warning + 1)
  }

  /** The employees whose analysis succeeded, with their statistics, in order. */
  function StatsOf(fetch: Fetch, employees: seq<EmployeeRow>, y: int, m: int): seq<EmployeeStat> {
    if employees == [] then []
    else
      var prev := StatsOf(fetch, employees[..|employees| - 1], y, m);
      var e := employees[|employees| - 1];
      match MonthAnalysis(fetch, e.id, y, m)
      case Success(s) => prev + [EmployeeStat(e, s)]
      case Failure(_) => prev
  }

  function ReportOf(fetch: Fetch, employees: seq<EmployeeRow>, y: int, m: int): MonthlyReport {
    MonthlyReport(y, m, |employees|, SummaryOf(fetch, employees, y, m), StatsOf(fetch, employees, y, m))
  }

  /** The number of listed statistics with the given overall status. */
  function StatusCount(stats: seq<EmployeeStat>, status: ComplianceStatus): (n: nat)
    ensures n <= |stats|
  {
    if stats == [] then 0
    else
      StatusCount(stats[..|stats| - 1], status)
        + (if stats[|stats| - 1].stats.overallCompliance == status then 1 else 0)
  }

  /**
   * `generate_monthly_compliance_report`: analyses each employee's month and
   * counts it under its overall status, or as a warning when the analysis raises.
   */
  method GenerateMonthlyComplianceReport(fetch: Fetch, employees: seq<EmployeeRow>, y: int, m: int)
    returns (report: MonthlyReport)
    ensures report == ReportOf(fetch, employees, y, m)
  {
    var employeeStats: seq<EmployeeStat> := [];
    var summary := Summary(0, 0, 0, 0);
    for i := 0 to |employees|
      invariant summary == SummaryOf(fetch, employees[..i], y, m)
      invariant employeeStats == StatsOf(fetch, employees[..i], y, m)
    {
      assert employees[..i + 1][..i] == employees[..i];
      var employee := employees[i];
      var stats := AnalyzeEmployeeMonth(fetch, employee.id, y, m);
      if stats.Success? {
        employeeStats := employeeStats + [EmployeeStat(employee, stats.value)];
        summary := Tally(summary, stats.value.overallCompliance);
      } else {
        summary := summary.(warning := summary.warning + 1);
      }
    }
    assert employees[..|employees|] == employees;
    return MonthlyReport(y, m, |employees|, summary, employeeStats);
  }

  /**
   * Each employee increments exactly one counter, so the four add up to the
   * number of employees: the three statuses count the successful analyses by
   * their overall status, and the warnings are exactly the failures. The listed
   * statistics are those of the successful employees, in order.
   */
  lemma ReportAccountsForEveryEmployee(fetch: Fetch, employees: seq<EmployeeRow>, y: int, m: int)
    ensures var s := SummaryOf(fetch, employees, y, m);
      var st := StatsOf(fetch, employees, y, m);
      && s.compliant == StatusCount(st, Compliant)
      && s.partial == StatusCount(st, Partial)
      && s.nonCompliant == StatusCount(st, NonCompliant)
      && s.warning == Failures(fetch, employees, y, m)
      && |st| + Failures(fetch, employees, y, m) == |employees|
      && s.compliant + s.partial + s.nonCompliant + s.warning == |employees|
      && forall k :: 0 <= k < |st| ==>
           st[k].employeeInfo in employees && MonthAnalysis(fetch, st[k].employeeInfo.id, y, m) == Success(st[k].stats)
  {
    SummaryCounts(fetch, employees, y, m);
    StatsAreAnalyses(fetch, employees, y, m);
  }

  /** The counters against the listed statistics and the failures. */
  lemma {:induction false} SummaryCounts(fetch: Fetch, employees: seq<EmployeeRow>, y: int, m: int)
    ensures var s := SummaryOf(fetch, employees, y, m);
      var st := StatsOf(fetch, employees, y, m);
      && s.compliant == StatusCount(st, Compliant)
      && s.partial == StatusCount(st, Partial)
      && s.nonCompliant == StatusCount(st, NonCompliant)
      && s.compliant + s.partial + s.nonCompliant == |st|
      && s.warning == Failures(fetch, employees, y, m)
      && |st| + Failures(fetch, employees, y, m) == |employees|
  {
    if employees != [] {
      var init := employees[..|employees| - 1];
      var e := employees[|employees| - 1];
      SummaryCounts(fetch, init, y, m);
      match MonthAnalysis(fetch, e.id, y, m)
      case Success(a) =>
        var prev := StatsOf(fetch, init, y, m);
        StatusCountAppend(prev, EmployeeStat(e, a));
      case Failure(_) =>
    }
  }

  /** Appending one statistic adds one to the count of its own status only. */
  lemma StatusCountAppend(stats: seq<EmployeeStat>, x: EmployeeStat)
    ensures forall status ::
      (StatusCount(stats + [x], status) == StatusCount(stats, status) + if x.stats.overallCompliance == status then 1 else 0)
  {
    assert (stats + [x])[..|stats|] == stats;
  }

  /** Each listed statistic is the successful analysis of a listed employee. */
  lemma {:induction false} StatsAreAnalyses(fetch: Fetch, employees: seq<EmployeeRow>, y: int, m: int)
    ensures forall k :: 0 <= k < |StatsOf(fetch, employees, y, m)| ==>
      && StatsOf(fetch, employees, y, m)[k].employeeInfo in employees
      && MonthAnalysis(fetch, StatsOf(fetch, employees, y, m)[k].employeeInfo.id, y, m)
           == Success(StatsOf(fetch, employees, y, m)[k].stats)
  {
    if employees != [] {
      var init := employees[..|employees| - 1];
      var e := employees[|employees| - 1];
      StatsAreAnalyses(fetch, init, y, m);
      var st := StatsOf(fetch, employees, y, m);
      var prev := StatsOf(fetch, init, y, m);
      assert |prev| <= |st| && forall k :: 0 <= k < |prev| ==> st[k] == prev[k];
      assert |st| == |prev| + 1 ==> st[|prev|] == EmployeeStat(e, MonthAnalysis(fetch, e.id, y, m).value)
                                    && MonthAnalysis(fetch, e.id, y, m).Success?;
      forall k | 0 <= k < |st|
        ensures st[k].employeeInfo in employees && MonthAnalysis(fetch, st[k].employeeInfo.id, y, m) == Success(st[k].stats)
      {
        if k < |prev| {
          assert prev[k].employeeInfo in init;
          assert init[..] <= employees;
        }
      }
    }
  }

  // ---------------------------------------------------------------------------
  // Data-quality issues
  // ---------------------------------------------------------------------------

  const MISSING_EXIT_TEXT: string := "Missing exit record - only entry found"
  const INVALID_SEQUENCE_TEXT: string := "Invalid attendance sequence"
  const UNKNOWN_EMPLOYEE: string := "Unknown"

  /**
   * The type and description of a day whose punch count is not two: one punch
   * is a missing exit, more than two are multiple entries, anything else an
   * invalid sequence. No count yields a missing entry.
   */
  function ClassifyIssue(totalRecords: int): (c: (DataQualityIssueType, string))
    ensures c.0 == MissingExit <==> totalRecords == 1
    ensures c.0 == MultipleEntries <==> totalRecords > 2
    ensures c.0 == InvalidSequence <==> totalRecords <= 0 || totalRecords == 2
    ensures c.0 != MissingEntry
    ensures c.0 == MissingExit ==> c.1 == MISSING_EXIT_TEXT
    ensures c.0 == MultipleEntries ==> c.1 == "Multiple entries found (" + IntToString(totalRecords) + " records)"
    ensures c.0 == InvalidSequence ==> c.1 == INVALID_SEQUENCE_TEXT
  {
    if totalRecords == 1 then (MissingExit, MISSING_EXIT_TEXT)
    else if totalRecords > 2 then (MultipleEntries, "Multiple entries found (" + IntToString(totalRecords) + " records)")
    else (InvalidSequence, INVALID_SEQUENCE_TEXT)
  }

  /**
   * The description tells the issue type apart, and for multiple entries the
   * punch count: different types or different counts above two never share one.
   */
  lemma DescriptionIdentifiesIssue(a: int, b: int)
    ensures ClassifyIssue(a).0 != ClassifyIssue(b).0 ==> ClassifyIssue(a).1 != ClassifyIssue(b).1
    ensures a > 2 && b > 2 && ClassifyIssue(a).1 == ClassifyIssue(b).1 ==> a == b
  {
    var da, db := ClassifyIssue(a).1, ClassifyIssue(b).1;
    var prefix := "Multiple entries found (";
    if ClassifyIssue(a).0 != ClassifyIssue(b).0 {
      if a > 2 || b > 2 {
        assert da[1] != db[1] || da[0] != db[0];
      } else {
        assert da[0] != db[0];
      }
    }
    if a > 2 && b > 2 && da == db {
      var sa, sb := IntToString(a), IntToString(b);
      assert da == prefix + sa + " records)";
      assert db == prefix + sb + " records)";
      assert |sa| == |sb|;
      assert sa == da[|prefix|..|prefix| + |sa|];
      assert sb == db[|prefix|..|prefix| + |sb|];
      NatToStringInjective(a, b);
    }
  }

  /** The employee name of the report: first name and surname, or "Unknown" without a record. */
  function DisplayName(info: Option<EmployeeName>): string {
    match info
    case Some(n) => n.name + " " + n.surname
    case None => UNKNOWN_EMPLOYEE
  }

  /** The issue reported for one row of the data-quality query. */
  function IssueOf(row: IssueRow, lookup: int -> Option<EmployeeName>): DataQualityIssue {
    var (issueType, description) := ClassifyIssue(row.totalRecords);
    DataQualityIssue(row.employeeId, DisplayName(lookup(row.employeeId)), row.day, issueType,
                     description, row.totalRecords, row.firstRecord, row.lastRecord)
  }

  /**
   * The issues of the query's rows: one per row, in row order, carrying the
   * row's employee, day, count and first and last punch.
   */
  function DetectedIssues(rows: seq<IssueRow>, lookup: int -> Option<EmployeeName>): (issues: seq<DataQualityIssue>)
    ensures |issues| == |rows|
    ensures forall k :: 0 <= k < |rows| ==>
      var (row, issue) := (rows[k], issues[k]);
      && issue.employeeId == row.employeeId
      && issue.date == row.day
      && issue.totalRecords == row.totalRecords
      && issue.firstRecord == row.firstRecord
      && issue.lastRecord == row.lastRecord
      && (issue.issueType, issue.description) == ClassifyIssue(row.totalRecords)
      && (lookup(row.employeeId).None? ==> issue.employeeName == UNKNOWN_EMPLOYEE)
      && (lookup(row.employeeId).Some? ==>
            issue.employeeName == lookup(row.employeeId).value.name + " " + lookup(row.employeeId).value.surname)
  {
    seq(|rows|, k requires 0 <= k < |rows| => IssueOf(rows[k], lookup))
  }

  /** `detect_data_quality_issues`, over the rows the query returned and the employee lookup. */
  method DetectDataQualityIssues(rows: seq<IssueRow>, lookup: int -> Option<EmployeeName>)
    returns (qualityIssues: seq<DataQualityIssue>)
    ensures qualityIssues == DetectedIssues(rows, lookup)
  {
    qualityIssues := [];
    for i := 0 to |rows|
      invariant qualityIssues == DetectedIssues(rows[..i], lookup)
    {
      var issue := rows[i];
      var employeeName := DisplayName(lookup(issue.employeeId));
      var totalRecords := issue.totalRecords;
      var issueType, description;
      if totalRecords == 1 {
        issueType, description := MissingExit, MISSING_EXIT_TEXT;
      } else if totalRecords > 2 {
        issueType, description := MultipleEntries, "Multiple entries found (" + IntToString(totalRecords) + " records)";
      } else {
        issueType, description := InvalidSequence, INVALID_SEQUENCE_TEXT;
      }
      qualityIssues := qualityIssues + [DataQualityIssue(issue.employeeId, employeeName, issue.day, issueType,
                                                         description, totalRecords, issue.firstRecord, issue.lastRecord)];
    }
    assert rows[..|rows|] == rows;
  }

  // ---------------------------------------------------------------------------
  // Dashboard
  // ---------------------------------------------------------------------------

  datatype IssueCount = IssueCount(issueType: DataQualityIssueType, count: nat)

  datatype DashboardStats = DashboardStats(
    totalEmployees: nat,
    compliantEmployees: nat,
    nonCompliantEmployees: nat,
    complianceRate: real,
    totalDataIssues: nat,
    averageHoursPerDay: real,
    mostCommonIssues: seq<IssueCount>)

  function IssueTypeKey(): DataQualityIssue -> Option<DataQualityIssueType> {
    (i: DataQualityIssue) => Some(i.issueType)
  }

  /** The issue counts per type, in the order the types first occur. */
  function IssueCounts(issues: seq<DataQualityIssue>): seq<IssueCount> {
    var g := GroupBy(issues, IssueTypeKey());
    var order := KeyOrder(issues, IssueTypeKey());
    KeyOrderListsKeys(issues, IssueTypeKey());
    seq(|order|, k requires 0 <= k < |order| => IssueCount(order[k], |g[order[k]]|))
  }

  /** "Comes no later than" for a listing by descending count. */
  predicate CountGe(a: IssueCount, b: IssueCount) {
    a.count >= b.count
  }

  /** The counts sorted by descending count; types with equal counts keep their first-occurrence order. */
  function MostCommonIssues(issues: seq<DataQualityIssue>): seq<IssueCount> {
    SortBy(IssueCounts(issues), CountGe)
  }

  /**
   * Each type of issue is listed once, exactly when some issue has it, with the
   * number of issues of that type.
   */
  lemma IssueCountsFacts(issues: seq<DataQualityIssue>)
    ensures var counts := IssueCounts(issues);
      && (forall i, j :: 0 <= i < j < |counts| ==> counts[i].issueType != counts[j].issueType)
      && (forall k :: 0 <= k < |counts| ==>
            counts[k].count == |WithKey(issues, IssueTypeKey(), counts[k].issueType)| && counts[k].count > 0)
      && (forall i :: 0 <= i < |issues| ==>
            exists k :: 0 <= k < |counts| && counts[k].issueType == issues[i].issueType)
  {
    var key := IssueTypeKey();
    var counts := IssueCounts(issues);
    var order := KeyOrder(issues, key);
    KeyOrderListsKeys(issues, key);
    forall k | 0 <= k < |counts|
      ensures counts[k].count == |WithKey(issues, key, counts[k].issueType)| && counts[k].count > 0
    {
      GroupByMembers(issues, key, order[k]);
    }
    forall i | 0 <= i < |issues|
      ensures exists k :: 0 <= k < |counts| && counts[k].issueType == issues[i].issueType
    {
      var t := issues[i].issueType;
      WithKeyHas(issues, key, issues[i]);
      GroupByMembers(issues, key, t);
      var k :| 0 <= k < |order| && order[k] == t;
      assert counts[k].issueType == t;
    }
  }

  /** The listing is in descending count order and holds exactly the per-type counts. */
  lemma MostCommonIssuesSorted(issues: seq<DataQualityIssue>)
    ensures SortedBy(MostCommonIssues(issues), CountGe)
    ensures forall i, j :: 0 <= i < j < |MostCommonIssues(issues)| ==>
      MostCommonIssues(issues)[i].count >= MostCommonIssues(issues)[j].count
    ensures multiset(MostCommonIssues(issues)) == multiset(IssueCounts(issues))
  {
    SortBySorted(IssueCounts(issues), CountGe);
  }

  /** Whether `issueCounts` holds, for each type met in `done`, the number of issues of that type. */
  ghost predicate CountsOf(issueCounts: map<DataQualityIssueType, nat>, done: seq<DataQualityIssue>) {
    && issueCounts.Keys == GroupBy(done, IssueTypeKey()).Keys
    && forall t :: t in issueCounts ==> issueCounts[t] == |GroupBy(done, IssueTypeKey())[t]|
  }

  /** The defaultdict count of `get_dashboard_statistics`, listed in first-occurrence order. */
  method CountIssueTypes(issues: seq<DataQualityIssue>) returns (counts: seq<IssueCount>)
    ensures counts == IssueCounts(issues)
  {
    var issueCounts: map<DataQualityIssueType, nat> := map[];
    var order: seq<DataQualityIssueType> := [];
    for i := 0 to |issues|
      invariant order == KeyOrder(issues[..i], IssueTypeKey())
      invariant CountsOf(issueCounts, issues[..i])
    {
      assert issues[..i + 1] == issues[..i] + [issues[i]];
      issueCounts, order := CountOne(issueCounts, order, issues[..i], issues[i]);
    }
    assert issues[..|issues|] == issues;
    KeyOrderListsKeys(issues, IssueTypeKey());
    counts := seq(|order|, k requires 0 <= k < |order| => IssueCount(order[k], issueCounts[order[k]]));
    CountsListing(issues, issueCounts, counts);
  }

  /** `issue_counts[issue.issue_type] += 1` on a defaultdict, with its key order. */
  method CountOne(issueCounts: map<DataQualityIssueType, nat>, order: seq<DataQualityIssueType>,
                  ghost done: seq<DataQualityIssue>, issue: DataQualityIssue)
    returns (issueCounts': map<DataQualityIssueType, nat>, order': seq<DataQualityIssueType>)
    requires order == KeyOrder(done, IssueTypeKey()) && CountsOf(issueCounts, done)
    ensures order' == KeyOrder(done + [issue], IssueTypeKey()) && CountsOf(issueCounts', done + [issue])
  {
    var t := issue.issueType;
    AppendKeyed(done, IssueTypeKey(), issue, t);
    KeyOrderListsKeys(done, IssueTypeKey());
    ghost var g := GroupBy(done, IssueTypeKey());
    assert GroupBy(done + [issue], IssueTypeKey()) == g[t := (if t in g then g[t] else []) + [issue]];
    var current := if t in issueCounts then issueCounts[t] else 0;
    assert current == if t in g then |g[t]| else 0;
    issueCounts' := issueCounts[t := current + 1];
    order' := if t in issueCounts then order else order + [t];
  }

  /** The counts read off the dictionary in key order are `IssueCounts`. */
  lemma CountsListing(issues: seq<DataQualityIssue>, issueCounts: map<DataQualityIssueType, nat>, counts: seq<IssueCount>)
    requires CountsOf(issueCounts, issues)
    requires var order := KeyOrder(issues, IssueTypeKey());
      && |counts| == |order|
      && forall k :: 0 <= k < |order| ==> order[k] in issueCounts && counts[k] == IssueCount(order[k], issueCounts[order[k]])
    ensures counts == IssueCounts(issues)
  {
    KeyOrderListsKeys(issues, IssueTypeKey());
  }

  function HoursOfStats(stats: seq<EmployeeStat>): real {
    if stats == [] then 0.0 else HoursOfStats(stats[..|stats| - 1]) + stats[|stats| - 1].stats.totalHoursWorked
  }

  function DaysOfStats(stats: seq<EmployeeStat>): nat {
    if stats == [] then 0 else DaysOfStats(stats[..|stats| - 1]) + stats[|stats| - 1].stats.totalDaysAttended
  }

  function DashboardOf(report: MonthlyReport, issues: seq<DataQualityIssue>): DashboardStats {
    var total := report.totalEmployees;
    var compliant := report.complianceSummary.compliant;
    var rate := if total > 0 then compliant as real / total as real * 100.0 else 0.0;
    var days := DaysOfStats(report.employeeStats);
    var average := if days > 0 then HoursOfStats(report.employeeStats) / days as real else 0.0;
    DashboardStats(total, compliant, report.complianceSummary.nonCompliant, rate, |issues|, average,
                   MostCommonIssues(issues))
  }

  /**
   * `get_dashboard_statistics`: the month report, all data-quality issues, the
   * compliance rate, the average hours per attended day and the issue types by
   * descending count.
   */
  method GetDashboardStatistics(fetch: Fetch, employees: seq<EmployeeRow>, rows: seq<IssueRow>,
                                lookup: int -> Option<EmployeeName>, y: int, m: int)
    returns (d: DashboardStats)
    ensures d == DashboardOf(ReportOf(fetch, employees, y, m), DetectedIssues(rows, lookup))
  {
    var report := GenerateMonthlyComplianceReport(fetch, employees, y, m);
    var dataIssues := DetectDataQualityIssues(rows, lookup);
    var counts := CountIssueTypes(dataIssues);
    var mostCommonIssues := SortBy(counts, CountGe);
    var totalEmployees := report.totalEmployees;
    var compliantEmployees := report.complianceSummary.compliant;
    var complianceRate := if totalEmployees > 0 then compliantEmployees as real / totalEmployees as real * 100.0 else 0.0;
    var totalHours := HoursOfStats(report.employeeStats);
    var totalDays := DaysOfStats(report.employeeStats);
    var averageHoursPerDay := if totalDays > 0 then totalHours / totalDays as real else 0.0;
    return DashboardStats(totalEmployees, compliantEmployees, report.complianceSummary.nonCompliant,
                          complianceRate, |dataIssues|, averageHoursPerDay, mostCommonIssues);
  }

  /** A share of a positive whole, as a percentage, lies between 0 and 100, and is 100 for the whole. */
  lemma PercentageBounds(part: nat, whole: nat)
    requires 0 < whole && part <= whole
    ensures 0.0 <= part as real / whole as real * 100.0 <= 100.0
    ensures part == whole ==> part as real / whole as real * 100.0 == 100.0
  {
    var q := part as real / whole as real;
    assert q * whole as real == part as real;
    assert q <= 1.0;
    if part == whole {
      assert q == 1.0;
    }
  }

  /**
   * The dashboard counts every employee and every issue row; compliant and
   * non-compliant employees never exceed the total, and the rate is a percentage.
   */
  lemma DashboardCounts(fetch: Fetch, employees: seq<EmployeeRow>, rows: seq<IssueRow>,
                        lookup: int -> Option<EmployeeName>, y: int, m: int)
    ensures var d := DashboardOf(ReportOf(fetch, employees, y, m), DetectedIssues(rows, lookup));
      && d.totalEmployees == |employees|
      && d.compliantEmployees + d.nonCompliantEmployees <= d.totalEmployees
      && d.totalDataIssues == |rows|
      && 0.0 <= d.complianceRate <= 100.0
      && (d.compliantEmployees == d.totalEmployees && d.totalEmployees > 0 ==> d.complianceRate == 100.0)
  {
    ReportAccountsForEveryEmployee(fetch, employees, y, m);
    var s := SummaryOf(fetch, employees, y, m);
    if |employees| > 0 {
      PercentageBounds(s.compliant, |employees|);
    }
  }

  // ---------------------------------------------------------------------------
  // Employee trends
  // ---------------------------------------------------------------------------

  datatype TrendData = TrendData(
    month: string,
    daysAttended: nat,
    totalHours: real,
    complianceStatus: ComplianceStatus,
    hoursCompliance: bool,
    patternCompliance: bool)

  datatype EmployeeTrends = EmployeeTrends(
    employeeInfo: Option<EmployeeName>,
    trendData: seq<TrendData>,
    overallTrend: string)

  const IMPROVING: string := "improving"
  const DECLINING: string := "declining"
  const STABLE: string := "stable"
  /** The text of the exception subtracting days before 0001-01-01 raises. */
  const DATE_OUT_OF_RANGE: string := "date value out of range"

  /** `f"{year}-{month:02d}"`. */
  function MonthLabel(y: int, m: nat): string {
    IntToString(y) + "-" + Padded(m, 2)
  }

  function TrendPoint(y: int, m: nat, s: MonthlyStats): TrendData {
    TrendData(MonthLabel(y, m), s.totalDaysAttended, s.totalHoursWorked, s.overallCompliance,
              s.hoursCompliance == Compliant, s.patternCompliance)
  }

  /** The trend point of the month holding a day, or none when that month's analysis raises. */
  type MonthPoint = int -> Option<TrendData>

  /**
   * `analyze_employee_month` of one employee for the month holding a day,
   * labelled with that month.
   */
  function MonthPointOf(fetch: Fetch, employeeId: int): MonthPoint {
    (day: int) =>
      if day < 1 then None
      else
        var (y, m, _) := DateOf(day);
        match MonthAnalysis(fetch, employeeId, y, m)
        case Success(s) => Some(TrendPoint(y, m, s))
        case Failure(_) => None
  }

  /**
   * The points of the `n` months looked at, newest first: month i is the month
   * of the date 30*i days before today. A month whose analysis raises is
   * skipped; a date before year 1 raises out of the loop.
   */
  function TrendPoints(point: MonthPoint, today: int, n: nat): Result<seq<TrendData>, string> {
    if n == 0 then Success([])
    else
      match TrendPoints(point, today, n - 1)
      case Failure(e) => Failure(e)
      case Success(data) =>
        var target := today - 30 * (n - 1);
        if target < 1 then Failure(DATE_OUT_OF_RANGE)
        else
          match point(target)
          case None => Success(data)
          case Some(p) => Success(data + [p])
  }

  /** The number of compliant months among the points. */
  function CompliantMonths(data: seq<TrendData>): (n: nat)
    ensures n <= |data|
  {
    if data == [] then 0
    else CompliantMonths(data[..|data| - 1]) + (if data[|data| - 1].complianceStatus == Compliant then 1 else 0)
  }

  /**
   * The trend of newest-first points: with three or more, the compliant months
   * among the newest three against those among the rest.
   */
  function TrendOf(data: seq<TrendData>): (t: string)
    ensures |data| < 3 ==> t == STABLE
    ensures |data| >= 3 ==>
      && (t == IMPROVING <==> CompliantMonths(data[..3]) > CompliantMonths(data[3..]))
      && (t == DECLINING <==> CompliantMonths(data[..3]) < CompliantMonths(data[3..]))
      && (t == STABLE <==> CompliantMonths(data[..3]) == CompliantMonths(data[3..]))
  {
    if |data| >= 3 then
      var recent := CompliantMonths(data[..3]);
      var older := CompliantMonths(data[3..]);
      if recent > older then IMPROVING else if recent < older then DECLINING else STABLE
    else STABLE
  }

  lemma {:induction false} CompliantMonthsAppend(a: seq<TrendData>, b: seq<TrendData>)
    ensures CompliantMonths(a + b) == CompliantMonths(a) + CompliantMonths(b)
    decreases |b|
  {
    if b == [] {
      assert a + b == a;
    } else {
      assert (a + b)[..|a + b| - 1] == a + b[..|b| - 1];
      CompliantMonthsAppend(a, b[..|b| - 1]);
    }
  }

  /**
   * Improving means the newest three months hold more than half of all the
   * compliant months; declining, fewer than half.
   */
  lemma TrendAgainstWhole(data: seq<TrendData>)
    requires |data| >= 3
    ensures TrendOf(data) == IMPROVING <==> 2 * CompliantMonths(data[..3]) > CompliantMonths(data)
    ensures TrendOf(data) == DECLINING <==> 2 * CompliantMonths(data[..3]) < CompliantMonths(data)
  {
    assert data == data[..3] + data[3..];
    CompliantMonthsAppend(data[..3], data[3..]);
  }

  function Reverse<T>(s: seq<T>): (r: seq<T>)
    ensures |r| == |s|
    ensures forall i :: 0 <= i < |s| ==> r[i] == s[|s| - 1 - i]
  {
    if s == [] then [] else [s[|s| - 1]] + Reverse(s[..|s| - 1])
  }

  function EmployeeTrendsOf(fetch: Fetch, lookup: int -> Option<EmployeeName>, employeeId: int,
                            monthsBack: int, now: Timestamp): Result<EmployeeTrends, string>
  {
    var n := if monthsBack > 0 then monthsBack else 0;
    match TrendPoints(MonthPointOf(fetch, employeeId), DayOf(now), n)
    case Failure(e) => Failure(e)
    case Success(data) => Success(EmployeeTrends(lookup(employeeId), Reverse(data), TrendOf(data)))
  }

  /**
   * The day each point of `TrendPoints` was taken from, newest first: the
   * target day of every month whose analysis succeeded.
   */
  ghost function SampleDays(point: MonthPoint, today: int, n: nat): seq<int> {
    if n == 0 then []
    else
      var days := SampleDays(point, today, n - 1);
      var target := today - 30 * (n - 1);
      if target >= 1 && point(target).Some? then days + [target] else days
  }

  /** Whether `days` lie in the `n` months back from `today`, newest first, 30 days apart or more. */
  ghost predicate DaysNewestFirst(days: seq<int>, today: int, n: nat) {
    && (forall j :: 0 <= j < |days| ==> 1 <= days[j] <= today && today - 30 * (n - 1) <= days[j])
    && (forall j, k :: 0 <= j < k < |days| ==> days[k] + 30 <= days[j])
  }

  /** Looking at one month more without taking a day keeps the days newest first. */
  lemma DaysWidened(days: seq<int>, today: int, n: nat)
    requires n > 0 && DaysNewestFirst(days, today, n - 1)
    ensures DaysNewestFirst(days, today, n)
  {
  }

  /** Taking the day of the month looked at last keeps the days newest first. */
  lemma DaysExtended(days: seq<int>, today: int, n: nat, target: int)
    requires n > 0 && DaysNewestFirst(days, today, n - 1)
    requires target == today - 30 * (n - 1) && target >= 1
    ensures DaysNewestFirst(days + [target], today, n)
  {
    var days' := days + [target];
    forall j, k | 0 <= j < k < |days'|
      ensures days'[k] + 30 <= days'[j]
    {
      assert days'[j] == days[j];
    }
  }

  /** The days looked at lie in the window and strictly decrease, 30 days apart or more. */
  lemma {:induction false} SampleDaysNewestFirst(point: MonthPoint, today: int, n: nat)
    ensures DaysNewestFirst(SampleDays(point, today, n), today, n)
  {
    if n > 0 {
      SampleDaysNewestFirst(point, today, n - 1);
      var before := SampleDays(point, today, n - 1);
      var target := today - 30 * (n - 1);
      if target < 1 {
        DaysWidened(before, today, n);
      } else {
        var days := SampleDays(point, today, n);
        assert days == before || days == before + [target];
        if days == before {
          DaysWidened(before, today, n);
        } else {
          DaysExtended(before, today, n, target);
        }
      }
    }
  }

  /** `point` of each of `days`, in order. */
  ghost function SampledPoints(point: MonthPoint, days: seq<int>): (r: seq<Option<TrendData>>)
    ensures |r| == |days|
  {
    if days == [] then []
    else SampledPoints(point, days[..|days| - 1]) + [point(days[|days| - 1])]
  }

  lemma {:induction false} SampledPointsAt(point: MonthPoint, days: seq<int>, j: nat)
    requires j < |days|
    ensures SampledPoints(point, days)[j] == point(days[j])
  {
    if j < |days| - 1 {
      SampledPointsAt(point, days[..|days| - 1], j);
    }
  }

  /** Each point, as an `Option`. */
  function Present<T>(s: seq<T>): (r: seq<Option<T>>)
    ensures |r| == |s| && forall i :: 0 <= i < |s| ==> r[i] == Some(s[i])
  {
    seq(|s|, i requires 0 <= i < |s| => Some(s[i]))
  }

  /** Each collected point is the point of the month of the day it was taken from. */
  lemma {:induction false} TrendPointsSampled(point: MonthPoint, today: int, n: nat)
    requires TrendPoints(point, today, n).Success?
    ensures SampledPoints(point, SampleDays(point, today, n))
      == Present(TrendPoints(point, today, n).value)
  {
    if n > 0 {
      TrendPointsSampled(point, today, n - 1);
      var before := SampleDays(point, today, n - 1);
      var prev := TrendPoints(point, today, n - 1).value;
      var target := today - 30 * (n - 1);
      if target >= 1 && point(target).Some? {
        var days := before + [target];
        assert days[..|days| - 1] == before;
        assert Present(prev + [point(target).value]) == Present(prev) + [point(target)];
      }
    }
  }


  /** Days newest first, reversed, strictly increase. */
  lemma ReversedDaysIncrease(days: seq<int>, today: int, n: nat)
    requires DaysNewestFirst(days, today, n)
    ensures forall j, k :: 0 <= j < k < |days| ==> Reverse(days)[j] < Reverse(days)[k]
  {
    forall j, k | 0 <= j < k < |days|
      ensures Reverse(days)[j] < Reverse(days)[k]
    {
      assert days[|days| - 1 - j] + 30 <= days[|days| - 1 - k];
    }
  }

  /** Points that are the points of their days stay so when both are reversed. */
  lemma ReversedPointsOfDays(point: MonthPoint, days: seq<int>, data: seq<TrendData>)
    requires SampledPoints(point, days) == Present(data)
    ensures |days| == |data|
    ensures forall j :: 0 <= j < |days| ==> point(Reverse(days)[j]) == Some(Reverse(data)[j])
  {
    forall j | 0 <= j < |days|
      ensures point(Reverse(days)[j]) == Some(Reverse(data)[j])
    {
      var i := |days| - 1 - j;
      SampledPointsAt(point, days, i);
      assert Present(data)[i] == Some(data[i]);
    }
  }

  /** Reversed, the collected points run oldest first, each the point of its sampled day. */
  lemma PointsOldestFirst(point: MonthPoint, today: int, n: nat)
    requires TrendPoints(point, today, n).Success?
    ensures var points := Reverse(TrendPoints(point, today, n).value);
      var days := Reverse(SampleDays(point, today, n));
      && |days| == |points|
      && (forall j :: 0 <= j < |days| ==> point(days[j]) == Some(points[j]))
      && (forall j, k :: 0 <= j < k < |days| ==> days[j] < days[k])
  {
    SampleDaysNewestFirst(point, today, n);
    TrendPointsSampled(point, today, n);
    ReversedDaysIncrease(SampleDays(point, today, n), today, n);
    ReversedPointsOfDays(point, SampleDays(point, today, n), TrendPoints(point, today, n).value);
  }

  /**
   * The points `get_employee_trends` returns run oldest first: each is the
   * analysis of the month of a sampled day, and the sampled days increase.
   */
  lemma TrendsOldestFirst(fetch: Fetch, lookup: int -> Option<EmployeeName>, employeeId: int,
                          monthsBack: int, now: Timestamp)
    requires EmployeeTrendsOf(fetch, lookup, employeeId, monthsBack, now).Success?
    ensures var points := EmployeeTrendsOf(fetch, lookup, employeeId, monthsBack, now).value.trendData;
      var point := MonthPointOf(fetch, employeeId);
      var days := Reverse(SampleDays(point, DayOf(now), if monthsBack > 0 then monthsBack else 0));
      && |days| == |points|
      && (forall j :: 0 <= j < |days| ==> point(days[j]) == Some(points[j]))
      && (forall j, k :: 0 <= j < k < |days| ==> days[j] < days[k])
  {
    var n := if monthsBack > 0 then monthsBack else 0;
    PointsOldestFirst(MonthPointOf(fetch, employeeId), DayOf(now), n);
  }

  lemma {:induction false} TrendPointsFailureStays(point: MonthPoint, today: int, i: nat, n: nat)
    requires i <= n
    requires TrendPoints(point, today, i) == Failure(DATE_OUT_OF_RANGE)
    ensures TrendPoints(point, today, n) == Failure(DATE_OUT_OF_RANGE)
    decreases n - i
  {
    if i < n {
      TrendPointsFailureStays(point, today, i + 1, n);
    }
  }

  /**
   * The trend raises exactly when the oldest date looked at falls before year 1;
   * otherwise it has at most one point per month looked at.
   */
  lemma {:induction false} TrendPointsFacts(point: MonthPoint, today: int, n: nat)
    ensures TrendPoints(point, today, n).Failure? <==> n > 0 && today - 30 * (n - 1) < 1
    ensures TrendPoints(point, today, n).Success? ==> |TrendPoints(point, today, n).value| <= n
  {
    if n > 0 {
      TrendPointsFacts(point, today, n - 1);
    }
  }

  /** The loop of `get_employee_trends`: one point per month looked at whose analysis succeeds. */
  method CollectTrendPoints(fetch: Fetch, employeeId: int, today: int, n: nat) returns (r: Result<seq<TrendData>, string>)
    ensures r == TrendPoints(MonthPointOf(fetch, employeeId), today, n)
  {
    var trendData: seq<TrendData> := [];
    for i := 0 to n
      invariant TrendPoints(MonthPointOf(fetch, employeeId), today, i) == Success(trendData)
    {
      var target := today - 30 * i;
      if target < 1 {
        TrendPointsFailureStays(MonthPointOf(fetch, employeeId), today, i + 1, n);
        return Failure(DATE_OUT_OF_RANGE);
      }
      var (y, m, _) := DateOf(target);
      var stats := AnalyzeEmployeeMonth(fetch, employeeId, y, m);
      assert MonthPointOf(fetch, employeeId)(target) == if stats.Success? then Some(TrendPoint(y, m, stats.value)) else None;
      if stats.Success? {
        trendData := trendData + [TrendPoint(y, m, stats.value)];
      }
    }
    return Success(trendData);
  }

  /**
   * `get_employee_trends` with the current instant as a parameter: one point
   * per month whose analysis succeeds, newest first, then the trend and the
   * points oldest first.
   */
  method GetEmployeeTrends(fetch: Fetch, lookup: int -> Option<EmployeeName>, employeeId: int,
                           monthsBack: int, now: Timestamp)
    returns (r: Result<EmployeeTrends, string>)
    ensures r == EmployeeTrendsOf(fetch, lookup, employeeId, monthsBack, now)
  {
    var employeeInfo := lookup(employeeId);
    var n := if monthsBack > 0 then monthsBack else 0;
    var points := CollectTrendPoints(fetch, employeeId, DayOf(now), n);
    if points.Failure? {
      return Failure(points.error);
    }
    var trendData := points.value;
    var overallTrend := STABLE;
    if |trendData| >= 3 {
      var recent := CompliantMonths(trendData[..3]);
      var older := CompliantMonths(trendData[3..]);
      if recent > older {
        overallTrend := IMPROVING;
      } else if recent < older {
        overallTrend := DECLINING;
      }
    }
    return Success(EmployeeTrends(employeeInfo, Reverse(trendData), overallTrend));
  }

  // ---------------------------------------------------------------------------
  // Department statistics
  // ---------------------------------------------------------------------------

  /** The accumulators of one department. */
  datatype DepartmentTotals = DepartmentTotals(
    totalEmployees: nat,
    compliantEmployees: nat,
    totalHours: real,
    totalDays: nat,
    dataIssues: nat)

  datatype DepartmentStats = DepartmentStats(
    departmentName: string,
    totalEmployees: nat,
    compliantEmployees: nat,
    averageComplianceRate: real,
    averageHoursPerEmployee: real,
    totalDataIssues: nat)

  const UNKNOWN_DEPARTMENT: string := "Unknown"

  function DepartmentOf(e: EmployeeRow): string {
    match e.department
    case Some(d) => d
    case None => UNKNOWN_DEPARTMENT
  }

  function DepartmentKey(): EmployeeRow -> Option<string> {
    (e: EmployeeRow) => Some(DepartmentOf(e))
  }

  /** The number of issues of an employee. */
  function IssuesOf(issues: seq<DataQualityIssue>, employeeId: int): (n: nat)
    ensures n <= |issues|
  {
    if issues == [] then 0
    else IssuesOf(issues[..|issues| - 1], employeeId) + (if issues[|issues| - 1].employeeId == employeeId then 1 else 0)
  }

  /** One employee added to its department: a failed analysis adds only to the head count. */
  function AddEmployee(acc: DepartmentTotals, outcome: Result<MonthlyStats, string>, issues: nat): DepartmentTotals {
    match outcome
    case Failure(_) => acc.(totalEmployees := acc.totalEmployees + 1)
    case Success(s) =>
      DepartmentTotals(acc.totalEmployees + 1,
                       acc.compliantEmployees + (if s.overallCompliance == Compliant then 1 else 0),
                       acc.totalHours + s.totalHoursWorked,
                       acc.totalDays + s.totalDaysAttended,
                       acc.dataIssues + issues)
  }

  /** The totals of a department's employees, first to last. */
  function TotalsOf(fetch: Fetch, issues: seq<DataQualityIssue>, y: int, m: int, es: seq<EmployeeRow>): DepartmentTotals {
    if es == [] then DepartmentTotals(0, 0, 0.0, 0, 0)
    else
      var e := es[|es| - 1];
      AddEmployee(TotalsOf(fetch, issues, y, m, es[..|es| - 1]), MonthAnalysis(fetch, e.id, y, m), IssuesOf(issues, e.id))
  }

  function StatsRow(name: string, t: DepartmentTotals): DepartmentStats {
    var rate := if t.totalEmployees > 0 then t.compliantEmployees as real / t.totalEmployees as real * 100.0 else 0.0;
    var average := if t.totalEmployees > 0 then t.totalHours / t.totalEmployees as real else 0.0;
    DepartmentStats(name, t.totalEmployees, t.compliantEmployees, rate, average, t.dataIssues)
  }

  /** One row per department, in the order departments first occur. */
  function DepartmentRows(fetch: Fetch, employees: seq<EmployeeRow>, issues: seq<DataQualityIssue>, y: int, m: int)
    : seq<DepartmentStats>
  {
    var order := KeyOrder(employees, DepartmentKey());
    seq(|order|, k requires 0 <= k < |order| =>
      StatsRow(order[k], TotalsOf(fetch, issues, y, m, WithKey(employees, DepartmentKey(), order[k]))))
  }

  predicate RateGe(a: DepartmentStats, b: DepartmentStats) {
    a.averageComplianceRate >= b.averageComplianceRate
  }

  function DepartmentStatistics(fetch: Fetch, employees: seq<EmployeeRow>, issues: seq<DataQualityIssue>, y: int, m: int)
    : seq<DepartmentStats>
  {
    SortBy(DepartmentRows(fetch, employees, issues, y, m), RateGe)
  }

  /** The defaultdict count of issues per employee. */
  method CountIssuesByEmployee(issues: seq<DataQualityIssue>) returns (issueByEmployee: map<int, nat>)
    ensures forall id :: (if id in issueByEmployee then issueByEmployee[id] else 0) == IssuesOf(issues, id)
  {
    issueByEmployee := map[];
    for i := 0 to |issues|
      invariant forall id :: (if id in issueByEmployee then issueByEmployee[id] else 0) == IssuesOf(issues[..i], id)
    {
      assert issues[..i + 1][..i] == issues[..i];
      var id := issues[i].employeeId;
      var current := if id in issueByEmployee then issueByEmployee[id] else 0;
      issueByEmployee := issueByEmployee[id := current + 1];
    }
    assert issues[..|issues|] == issues;
  }

  /** The totals of a department's employees, as a function of them. */
  function TotalsFor(fetch: Fetch, issues: seq<DataQualityIssue>, y: int, m: int): seq<EmployeeRow> -> DepartmentTotals {
    (es: seq<EmployeeRow>) => TotalsOf(fetch, issues, y, m, es)
  }

  /** Whether `acc` holds, for each department met in `es`, the totals of its employees there. */
  ghost predicate TotalsByDepartment(fetch: Fetch, issues: seq<DataQualityIssue>, y: int, m: int,
                                     es: seq<EmployeeRow>, acc: map<string, DepartmentTotals>)
  {
    AccumulatedBy(es, DepartmentKey(), acc, TotalsFor(fetch, issues, y, m))
  }

  /** Adding one employee to its department's totals keeps the accumulators right. */
  lemma AddEmployeeStep(fetch: Fetch, issues: seq<DataQualityIssue>, y: int, m: int,
                        es: seq<EmployeeRow>, e: EmployeeRow, acc: map<string, DepartmentTotals>)
    requires TotalsByDepartment(fetch, issues, y, m, es, acc)
    ensures var dept := DepartmentOf(e);
      var current := if dept in acc then acc[dept] else DepartmentTotals(0, 0, 0.0, 0, 0);
      TotalsByDepartment(fetch, issues, y, m, es + [e],
        acc[dept := AddEmployee(current, MonthAnalysis(fetch, e.id, y, m), IssuesOf(issues, e.id))])
  {
    var key := DepartmentKey();
    var dept := DepartmentOf(e);
    var current := if dept in acc then acc[dept] else DepartmentTotals(0, 0, 0.0, 0, 0);
    var v := AddEmployee(current, MonthAnalysis(fetch, e.id, y, m), IssuesOf(issues, e.id));
    StepOwnDepartment(fetch, issues, y, m, es, e, acc);
    assert v == TotalsFor(fetch, issues, y, m)(WithKey(es + [e], key, dept));
    AccumulatedStep(es, key, e, dept, acc, TotalsFor(fetch, issues, y, m), v);
  }

  /** The employee's own department gains that employee. */
  lemma StepOwnDepartment(fetch: Fetch, issues: seq<DataQualityIssue>, y: int, m: int,
                          es: seq<EmployeeRow>, e: EmployeeRow, acc: map<string, DepartmentTotals>)
    requires TotalsByDepartment(fetch, issues, y, m, es, acc)
    ensures var dept := DepartmentOf(e);
      var current := if dept in acc then acc[dept] else DepartmentTotals(0, 0, 0.0, 0, 0);
      AddEmployee(current, MonthAnalysis(fetch, e.id, y, m), IssuesOf(issues, e.id))
        == TotalsOf(fetch, issues, y, m, WithKey(es + [e], DepartmentKey(), dept))
  {
    var key := DepartmentKey();
    var dept := DepartmentOf(e);
    WithKeyAppend(es, key, e, dept);
    var prev := WithKey(es, key, dept);
    if dept in acc {
      assert acc[dept] == TotalsFor(fetch, issues, y, m)(prev);
    } else {
      GroupByMembers(es, key, dept);
    }
    var ws := prev + [e];
    assert ws[..|ws| - 1] == prev && ws[|ws| - 1] == e;
  }

  /** The counter updates of one employee in its department's accumulators. */
  method AddToDepartment(start: DepartmentTotals, stats: Result<MonthlyStats, string>, issuesOfEmployee: nat)
    returns (current: DepartmentTotals)
    ensures current == AddEmployee(start, stats, issuesOfEmployee)
  {
    current := start;
    if stats.Success? {
      var s := stats.value;
      current := current.(totalEmployees := current.totalEmployees + 1);
      current := current.(totalHours := current.totalHours + s.totalHoursWorked);
      current := current.(totalDays := current.totalDays + s.totalDaysAttended);
      current := current.(dataIssues := current.dataIssues + issuesOfEmployee);
      if s.overallCompliance == Compliant {
        current := current.(compliantEmployees := current.compliantEmployees + 1);
      }
    } else {
      current := current.(totalEmployees := current.totalEmployees + 1);
    }
  }

  /** The employee loop of `get_department_statistics`. */
  method AccumulateDepartments(fetch: Fetch, employees: seq<EmployeeRow>, issues: seq<DataQualityIssue>,
                               issueByEmployee: map<int, nat>, y: int, m: int)
    returns (departmentStats: map<string, DepartmentTotals>, order: seq<string>)
    requires forall id :: (if id in issueByEmployee then issueByEmployee[id] else 0) == IssuesOf(issues, id)
    ensures TotalsByDepartment(fetch, issues, y, m, employees, departmentStats)
    ensures order == KeyOrder(employees, DepartmentKey())
  {
    var key := DepartmentKey();
    departmentStats := map[];
    order := [];
    for i := 0 to |employees|
      invariant order == KeyOrder(employees[..i], key)
      invariant TotalsByDepartment(fetch, issues, y, m, employees[..i], departmentStats)
    {
      var employee := employees[i];
      var dept := DepartmentOf(employee);
      assert employees[..i + 1] == employees[..i] + [employee];
      AddEmployeeStep(fetch, issues, y, m, employees[..i], employee, departmentStats);
      AppendKeyed(employees[..i], key, employee, dept);
      KeyOrderListsKeys(employees[..i], key);
      if dept !in departmentStats {
        order := order + [dept];
      }
      var start := if dept in departmentStats then departmentStats[dept] else DepartmentTotals(0, 0, 0.0, 0, 0);
      var stats := AnalyzeEmployeeMonth(fetch, employee.id, y, m);
      var issuesOfEmployee := if employee.id in issueByEmployee then issueByEmployee[employee.id] else 0;
      assert issuesOfEmployee == IssuesOf(issues, employee.id);
      var current := AddToDepartment(start, stats, issuesOfEmployee);
      departmentStats := departmentStats[dept := current];
    }
    assert employees[..|employees|] == employees;
  }

  /**
   * `get_department_statistics`: every employee is counted in its department
   * (Unknown without one); a successful analysis also adds hours, days, issues
   * and, when compliant, a compliant employee. Rows are sorted by compliance
   * rate, highest first.
   */
  method GetDepartmentStatistics(fetch: Fetch, employees: seq<EmployeeRow>, rows: seq<IssueRow>,
                                 lookup: int -> Option<EmployeeName>, y: int, m: int)
    returns (result: seq<DepartmentStats>)
    ensures result == DepartmentStatistics(fetch, employees, DetectedIssues(rows, lookup), y, m)
  {
    var dataIssues := DetectDataQualityIssues(rows, lookup);
    var issueByEmployee := CountIssuesByEmployee(dataIssues);
    var departmentStats, order := AccumulateDepartments(fetch, employees, dataIssues, issueByEmployee, y, m);
    OrderedDepartmentsHaveTotals(fetch, employees, dataIssues, y, m, departmentStats);
    var unsorted := StatsRows(departmentStats, order);
    RowsFromTotals(fetch, employees, dataIssues, y, m, departmentStats, unsorted);
    result := SortBy(unsorted, RateGe);
  }

  /** The loop over the departments in first-occurrence order: one row each. */
  method StatsRows(departmentStats: map<string, DepartmentTotals>, order: seq<string>) returns (rows: seq<DepartmentStats>)
    requires forall k :: 0 <= k < |order| ==> order[k] in departmentStats
    ensures |rows| == |order|
    ensures forall k :: 0 <= k < |order| ==> rows[k] == StatsRow(order[k], departmentStats[order[k]])
  {
    rows := [];
    for j := 0 to |order|
      invariant |rows| == j
      invariant forall k :: 0 <= k < j ==> rows[k] == StatsRow(order[k], departmentStats[order[k]])
    {
      rows := rows + [StatsRow(order[j], departmentStats[order[j]])];
    }
  }

  /** Every department of the first-occurrence order has its totals accumulated. */
  lemma OrderedDepartmentsHaveTotals(fetch: Fetch, employees: seq<EmployeeRow>, issues: seq<DataQualityIssue>,
                                     y: int, m: int, acc: map<string, DepartmentTotals>)
    requires TotalsByDepartment(fetch, issues, y, m, employees, acc)
    ensures forall k :: 0 <= k < |KeyOrder(employees, DepartmentKey())| ==> KeyOrder(employees, DepartmentKey())[k] in acc
  {
    KeyOrderListsKeys(employees, DepartmentKey());
  }

  /** Rows built from correct per-department totals, in first-occurrence order, are the department rows. */
  lemma RowsFromTotals(fetch: Fetch, employees: seq<EmployeeRow>, issues: seq<DataQualityIssue>, y: int, m: int,
                       acc: map<string, DepartmentTotals>, rows: seq<DepartmentStats>)
    requires TotalsByDepartment(fetch, issues, y, m, employees, acc)
    requires var order := KeyOrder(employees, DepartmentKey());
      && (forall k :: 0 <= k < |order| ==> order[k] in acc)
      && |rows| == |order|
      && forall k :: 0 <= k < |order| ==> rows[k] == StatsRow(order[k], acc[order[k]])
    ensures rows == DepartmentRows(fetch, employees, issues, y, m)
  {
  }

  /**
   * A department's head count is its number of employees, failed analyses
   * included; a department whose analyses all fail has nothing but that count.
   */
  lemma {:induction false} TotalsOfCounts(fetch: Fetch, issues: seq<DataQualityIssue>, y: int, m: int, es: seq<EmployeeRow>)
    ensures TotalsOf(fetch, issues, y, m, es).totalEmployees == |es|
    ensures TotalsOf(fetch, issues, y, m, es).compliantEmployees + Failures(fetch, es, y, m) <= |es|
    ensures Failures(fetch, es, y, m) == |es| ==> TotalsOf(fetch, issues, y, m, es) == DepartmentTotals(|es|, 0, 0.0, 0, 0)
  {
    if es != [] {
      TotalsOfCounts(fetch, issues, y, m, es[..|es| - 1]);
    }
  }

  /** The total head count of the rows, first to last. */
  function HeadCount(rows: seq<DepartmentStats>): nat {
    if rows == [] then 0 else HeadCount(rows[..|rows| - 1]) + rows[|rows| - 1].totalEmployees
  }

  lemma {:induction false} KeptAll(employees: seq<EmployeeRow>)
    ensures Kept(employees, DepartmentKey()) == employees
  {
    if employees != [] {
      KeptAll(employees[..|employees| - 1]);
    }
  }

  lemma {:induction false} HeadCountOfKeys(rows: seq<DepartmentStats>, g: map<string, seq<EmployeeRow>>, ks: seq<string>)
    requires |rows| == |ks|
    requires forall k :: 0 <= k < |ks| ==> ks[k] in g && rows[k].totalEmployees == |g[ks[k]]|
    ensures HeadCount(rows) == SizeSum(g, ks)
  {
    if ks != [] {
      HeadCountOfKeys(rows[..|rows| - 1], g, ks[..|ks| - 1]);
    }
  }


  /**
   * Each department is listed once, the rows are sorted by compliance rate,
   * highest first, they are the first-occurrence rows reordered, and their head
   * counts add up to the number of employees.
   */
  lemma DepartmentStatisticsFacts(fetch: Fetch, employees: seq<EmployeeRow>, issues: seq<DataQualityIssue>, y: int, m: int)
    ensures var rows := DepartmentRows(fetch, employees, issues, y, m);
      && (forall i, j :: 0 <= i < j < |rows| ==> rows[i].departmentName != rows[j].departmentName)
      && HeadCount(rows) == |employees|
    ensures var result := DepartmentStatistics(fetch, employees, issues, y, m);
      && multiset(result) == multiset(DepartmentRows(fetch, employees, issues, y, m))
      && forall i, j :: 0 <= i < j < |result| ==> result[i].averageComplianceRate >= result[j].averageComplianceRate
  {
    var key := DepartmentKey();
    KeyOrderListsKeys(employees, key);
    var order := KeyOrder(employees, key);
    var rows := DepartmentRows(fetch, employees, issues, y, m);
    forall k | 0 <= k < |order|
      ensures order[k] in GroupBy(employees, key) && rows[k].totalEmployees == |GroupBy(employees, key)[order[k]]|
    {
      GroupByMembers(employees, key, order[k]);
      TotalsOfCounts(fetch, issues, y, m, WithKey(employees, key, order[k]));
    }
    HeadCountOfKeys(rows, GroupBy(employees, key), order);
    GroupSizesSumToKept(employees, key);
    KeptAll(employees);
    SortBySorted(DepartmentRows(fetch, employees, issues, y, m), RateGe);
  }
}
