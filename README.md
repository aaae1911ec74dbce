# Attendance compliance engine — a Dafny model

This project models the part of the attendance-compliance service that decides
whether an employee met the hybrid-work attendance rules. It reads an employee's
punch clock records from the attendance table. Each record has an employee, a
FECHA_FICHADA stamp, a priority and an ignore flag. The engine groups the records
by calendar day and judges them. There are two independent evaluation paths:

* **The rule checker** (`ComplianceChecker`, in `compliance_checker.dfy`). It
  applies three rules over a period and gives a yes/no verdict with reasons:
  * Rule 1: at least 6 days with punches.
  * Rule 2: attendance in every 7-day block of the period, capped at 5 blocks.
  * Rule 3: at least 6 days with 8 hours or more, where hours are the sum of the
    sorted entry/exit pairs.

  It also models the single-employee entry point and the batch entry point that
  never raises.
* **The month analyzer** (`AttendanceAnalyzer`, in `attendance_analyzer.dfy`).
  It works on one employee and one calendar month:
  * It builds a record per day: entry, exit, hours, and whether the day is
    complete and has 9 hours.
  * It lays the month out on a Monday-first calendar grid, one pattern per week.
  * It totals the month and gives a three-level status (compliant, partial,
    non-compliant) for days, hours and the overall verdict, plus the
    one-or-two-days-per-week pattern flag.
* **The report helpers** (`Reports`, in `reports.dfy`) are built on the
  analyzer:
  * the monthly report with its status tally (a failed analysis counts as a
    warning);
  * the classification of data-quality issues;
  * the dashboard figures, with issue types ranked by frequency;
  * the six-month trend of an employee;
  * per-department statistics ranked by compliance rate.

The supporting modules are:

| Module | What it models |
|---|---|
| `Calendar` | Python's proleptic Gregorian ordinal dates and `datetime` range limits; `calendar.monthcalendar`. |
| `Stamps` | Stamps: a `datetime`, a string, or anything else. Also the `strptime('%Y-%m-%d %H:%M:%S')` coercion. |
| `Text` | The decimal and zero-padded formatting the messages use. |
| `Sorting` | A stable sort in the style of `sorted(..., reverse=True)`. |
| `Grouping` | A dictionary of lists filled in input order, with its key iteration order. |
| `Models` | The records. |
| `Wrappers` | `Option` and `Result`. |

Database access is a function parameter `Fetch`. It returns the punches of an
employee between two instants, or the text of the exception it raises. "Now" is a
parameter too.

## Model

| member | source | states |
|---|---|---|
| ComplianceChecker.KeepDay | backend/app/services/compliance_checker.py:119-146 | A punch is filed exactly when its stamp is a datetime or a string `strptime` accepts, and, when both bounds are given, it lies within [start, end]. The day it is filed under is the calendar day of that instant. |
| ComplianceChecker.GroupByDay | backend/app/services/compliance_checker.py:101-162 | The day groups and their key order are the in-order grouping of the punches by `KeepDay`. The counters hold every record, and the processed punches are exactly the kept ones. When bounds are given, in-period plus out-of-period equals the usable punches; otherwise both counters stay 0. |
| ComplianceChecker.FileUnderDay | backend/app/services/compliance_checker.py:145-151 | Filing one kept punch under its day (opening the day's list when it is new) keeps the dictionary and its key order equal to the grouping of the punches seen so far, one more included, and adds exactly that punch to the kept ones. |
| ComplianceChecker.GroupMembersInPeriod | backend/app/services/compliance_checker.py:135-152 | Every punch in a day's group comes from the input, has a usable stamp inside the period, and falls on that day. |
| ComplianceChecker.PeriodPunchFiled | backend/app/services/compliance_checker.py:135-152 | Conversely, every input punch with a usable stamp inside the period is in the group of its day. |
| ComplianceChecker.UnusablePunchSkipped | backend/app/services/compliance_checker.py:121-132 | A punch whose stamp cannot be coerced to a datetime is in no group. |
| ComplianceChecker.CheckMinimumDays | backend/app/services/compliance_checker.py:164-185 | Rule 1 holds exactly when there are 6 or more day groups. The result reports the day count, the minimum and the total records. The reason gains the total-records note exactly when records exist but no day was kept. |
| ComplianceChecker.CountWeeksInPeriod | backend/app/services/compliance_checker.py:286-299 | The number of 7-day blocks the period touches, at least 1 and at most 5. A period of d whole days (0 <= d < 35) gives the w with 7(w-1) <= d < 7w. |
| ComplianceChecker.WeeksOf | backend/app/services/compliance_checker.py:198-204 | The set of week indices holds exactly the index, relative to the period start, of each day key. |
| ComplianceChecker.WeeklyDistribution | backend/app/services/compliance_checker.py:187-221 | Rule 2 holds exactly when the distinct week indices number at least `max(1, CountWeeksInPeriod)`. The result reports those counts and the reason built from them. |
| ComplianceChecker.CheckWeeklyDistribution | backend/app/services/compliance_checker.py:187-221 | The loop over the day keys computes `WeeklyDistribution`. |
| ComplianceChecker.StartDayWeek | backend/app/services/compliance_checker.py:200-202 | The start day is week 1 when the period starts at midnight, and week 0 otherwise. |
| ComplianceChecker.WeekIndexInPeriod | backend/app/services/compliance_checker.py:200-202 | A day inside the period has a week index between 0 and `days/7 + 1`. Index 0 occurs only for the start day of a period that does not start at midnight. |
| ComplianceChecker.DayMeetsMinimumHours | backend/app/services/compliance_checker.py:245-284 | The stepped pair loop decides `DayMeets`: at least two punches, a sort and coercion without error, and 8 hours or more in total over the pairs. |
| ComplianceChecker.SumPairs | backend/app/services/compliance_checker.py:257-278 | The stepped loop over entries 0, 2, 4, ... computes `PairedSeconds`: a non-date value skips its pair, a string `strptime` rejects aborts with no total, and an unpaired last value is ignored. |
| ComplianceChecker.SortStamps | backend/app/services/compliance_checker.py:254 | `sorted` raises exactly when two values of different kinds, or values that are neither datetimes nor strings, meet (one value never raises). Otherwise the result is a permutation of the stamps in ascending order: chronological for datetimes, code-point lexicographic for strings. |
| ComplianceChecker.OddTrailingIgnored | backend/app/services/compliance_checker.py:259-260 | A trailing unpaired punch after an even number adds nothing to the paired time. |
| ComplianceChecker.ChronologicalPairsBounded | backend/app/services/compliance_checker.py:257-278 | For chronologically sorted datetimes, the paired time is defined and lies between 0 and the span from the first to the last punch. |
| ComplianceChecker.SortedDateTimes | backend/app/services/compliance_checker.py:254 | Sorting datetime stamps yields datetimes in chronological order, each taken from the input. |
| ComplianceChecker.DaySecondsBounded | backend/app/services/compliance_checker.py:245-280 | A day of datetime punches inside [lo, hi] is never credited more than hi - lo seconds. |
| ComplianceChecker.TwoPunchDay | backend/app/services/compliance_checker.py:254-278 | A two-punch day is credited the later punch minus the earlier one, whatever their order in the input. |
| ComplianceChecker.MinimumHours | backend/app/services/compliance_checker.py:223-243 | Rule 3 holds exactly when 6 or more day groups meet the hours test. The meeting days never exceed the day groups. |
| ComplianceChecker.CheckMinimumHours | backend/app/services/compliance_checker.py:223-243 | The loop over the day groups computes `MinimumHours`. |
| ComplianceChecker.FailedReasons | backend/app/services/compliance_checker.py:80-88 | One "Regla n" reason per failing rule, and nothing else. |
| ComplianceChecker.FailedReasonsListFailingRules | backend/app/services/compliance_checker.py:80-88 | The reason of rule n is listed exactly when rule n fails. Rule 1 comes first and rule 3 last. |
| ComplianceChecker.OverallReason | backend/app/services/compliance_checker.py:72-88 | The reason is "all rules met" exactly when all three rules hold. Otherwise it is the failing reasons joined by "; ". |
| ComplianceChecker.AnalysisOf | backend/app/services/compliance_checker.py:54-99 | The details hold the period's day groups. The overall verdict holds exactly when all three rules hold, and exactly when the reason is "all rules met". |
| ComplianceChecker.AnalyzeCompliance | backend/app/services/compliance_checker.py:54-99 | The grouping pass and the three rule checks compute `AnalysisOf`. |
| ComplianceChecker.EmployeeVerdictCases | backend/app/services/compliance_checker.py:11-52 | A fetch error is raised exactly when the fetch fails. No punches gives a non-compliant verdict with the no-data reason and no details. Otherwise the verdict is compliant exactly when its reason is "all rules met". |
| ComplianceChecker.CheckEmployeeCompliance | backend/app/services/compliance_checker.py:11-52 | The entry point computes `EmployeeVerdict`. |
| ComplianceChecker.BatchEntryOnError | backend/app/services/compliance_checker.py:326-339 | An employee whose check raises gets a non-compliant entry whose reason carries the error text. |
| ComplianceChecker.CheckOneOfBatch | backend/app/services/compliance_checker.py:325-339 | One turn of the batch loop computes `BatchEntry`: the employee's verdict, or the error entry when the check raises. |
| ComplianceChecker.CheckMultipleEmployeesCompliance | backend/app/services/compliance_checker.py:306-341 | One entry per requested employee, in order. Each is that employee's verdict, or its error entry. |
| AttendanceAnalyzer.DayRecord | backend/app/services/attendance_analyzer.py:29-61 | A day is complete exactly with two punches; it then runs from the earlier punch to the later one, with hours equal to their difference. One punch gives an entry only; any other count gives no times. The day has 9 hours exactly when it is complete and worked 9 hours or more. |
| AttendanceAnalyzer.DailyRecordsByDate | backend/app/services/attendance_analyzer.py:18-63 | There is a record for date d exactly when some punch falls on d. The record is built from exactly that day's punches, in input order. |
| AttendanceAnalyzer.ParseDailyAttendance | backend/app/services/attendance_analyzer.py:18-63 | It fails exactly when some stamp is not a datetime (`.date()` raises). Otherwise it returns the per-date records of `DailyRecords`. |
| AttendanceAnalyzer.FileUnderDate | backend/app/services/attendance_analyzer.py:20-25 | Appending one punch to its date's list keeps the dictionary and its key order equal to the grouping of the punches seen so far, one more included. |
| AttendanceAnalyzer.WeekOf | backend/app/services/attendance_analyzer.py:87-110 | A week meets the pattern exactly when it has one or two complete days. |
| AttendanceAnalyzer.AnalyzeWeeklyPatterns | backend/app/services/attendance_analyzer.py:65-112 | The nested loops over the month grid compute `WeeklyPatterns`. |
| AttendanceAnalyzer.AnalyzeWeek | backend/app/services/attendance_analyzer.py:79-110 | The loop over one row's days computes `WeekOf`: the records of those days, their complete days and hours, and the pattern flag. |
| AttendanceAnalyzer.WeeklyPatternsFollowGrid | backend/app/services/attendance_analyzer.py:74-110 | There is one pattern per grid row, in order. Each runs from the first to the last day of the month in its row and lists those days. Its attended count is their complete days, and it meets the pattern exactly with 1 or 2 of them. |
| AttendanceAnalyzer.MonthTotals | backend/app/services/attendance_analyzer.py:189-190 | The month totals are the complete days and their hours over every date of the month, each counted once. |
| AttendanceAnalyzer.CrowdedWeeks | backend/app/services/attendance_analyzer.py:147-149 | No week is counted as crowded exactly when every week has at most two attended days. |
| AttendanceAnalyzer.EvaluateCompliance | backend/app/services/attendance_analyzer.py:114-161 | Days: 6 or more is compliant, 4 to 5 partial, fewer non-compliant. Hours, over the complete days: all at 9 hours is compliant, 80% or more partial, otherwise or with no complete day non-compliant. Pattern: no week above two days. Overall: compliant exactly when all three hold, non-compliant exactly when days or hours is, never a warning. |
| AttendanceAnalyzer.PatternAloneGivesPartial | backend/app/services/attendance_analyzer.py:151-159 | When days and hours are compliant, a week above two days gives partial. |
| AttendanceAnalyzer.MonthAnalysis | backend/app/services/attendance_analyzer.py:163-216 | A successful analysis never carries the warning status. |
| AttendanceAnalyzer.AnalyzeEmployeeMonth | backend/app/services/attendance_analyzer.py:163-216 | The entry point computes `MonthAnalysis`. |
| AttendanceAnalyzer.MonthAnalysisFacts | backend/app/services/attendance_analyzer.py:171-205 | The analysis succeeds exactly when the month's period exists, the fetch succeeds and every stamp is a datetime. The totals are the month's complete days and hours. The average is 0 without complete days. The one-day and two-day week counts are those of the patterns. |
| Calendar.MonthPeriodCoversMonth | backend/app/services/attendance_analyzer.py:171-175 | The period exists exactly for years 1..9999 and months 1..12, except December 9999. It runs from the month's first midnight to one second before the next month, and covers exactly the instants of the month's days. |
| Calendar.MonthCalendarPartitionsMonth | backend/app/services/attendance_analyzer.py:74-79 | The grid has 4 to 6 rows of 7, and no row is without a day of the month. The rows' in-month days, in order, are exactly 1..days-in-month. |
| Calendar.DateOfOrdinal | attendance_analyzer.py:355-357 | Taking the year and month of a date, from its ordinal, inverts `Ordinal` on every valid date. |
| Stamps.ParseFormatRoundTrip | backend/app/services/compliance_checker.py:125-127 | `strptime` with the `%Y-%m-%d %H:%M:%S` format reads back every valid datetime written in that format. |
| Grouping.GroupByMembers | backend/app/services/compliance_checker.py:148-152 | A dictionary key exists exactly when some element has it, and its list is those elements in input order. |
| Grouping.KeyOrderListsKeys | attendance_analyzer.py:434 | Iteration order lists each key once, and nothing else. |
| Grouping.GroupSizesSumToKept | backend/app/services/compliance_checker.py:148-156 | Every kept element lands in exactly one list, so the list lengths sum to the number kept. |
| Sorting.SortBySorted | attendance_analyzer.py:447 | The stable sort orders its permutation by the relation (descending rate, descending count). |
| Reports.GenerateMonthlyComplianceReport | attendance_analyzer.py:218-258 | The loop over the employees computes `ReportOf`. |
| Reports.ReportAccountsForEveryEmployee | attendance_analyzer.py:228-257 | The compliant, partial and non-compliant counters count the listed statistics by overall status, and the warnings are exactly the failed analyses. The four add up to the number of employees. Each listed statistic is the successful analysis of a listed employee. |
| Reports.ClassifyIssue | attendance_analyzer.py:274-284 | One punch is a missing exit, more than two are multiple entries with the count in the text, anything else an invalid sequence. No count is classed as a missing entry. |
| Reports.DescriptionIdentifiesIssue | attendance_analyzer.py:276-284 | Different types get different descriptions, and a multiple-entries description determines its count. |
| Reports.DetectedIssues | attendance_analyzer.py:270-297 | One issue per query row, in order. Each carries the row's employee, day, count and first and last punch, the classification of its count, and the employee's full name or "Unknown". |
| Reports.DetectDataQualityIssues | attendance_analyzer.py:260-297 | The loop over the rows computes `DetectedIssues`. |
| Reports.IssueCountsFacts | attendance_analyzer.py:322-324 | Each issue type is counted once, exactly when some issue has it, with the number of issues of that type. |
| Reports.MostCommonIssuesSorted | attendance_analyzer.py:326-329 | The ranking holds exactly the per-type counts, with counts in descending order. |
| Reports.CountIssueTypes | attendance_analyzer.py:322-324 | The defaultdict loop computes `IssueCounts`. |
| Reports.CountOne | attendance_analyzer.py:323-324 | One defaultdict increment keeps every type's count equal to the number of issues of that type seen so far. |
| Reports.GetDashboardStatistics | attendance_analyzer.py:299-339 | The dashboard is `DashboardOf` the monthly report and the detected issues. |
| Reports.PercentageBounds | attendance_analyzer.py:314 | A part of a whole, as a percentage, lies in 0..100 and is 100 for the whole. |
| Reports.DashboardCounts | attendance_analyzer.py:309-336 | The dashboard counts every employee and every issue row. Compliant plus non-compliant never exceed the total, and the rate is a percentage: 100 when everyone complies. |
| Reports.TrendOf | attendance_analyzer.py:373-385 | With fewer than three points the trend is stable. Otherwise it is improving, declining or stable as the compliant months among the newest three exceed, fall short of, or equal those among the rest. |
| Reports.TrendAgainstWhole | attendance_analyzer.py:374-383 | Equivalently, improving exactly when the newest three hold more than half of all compliant months, declining exactly when they hold less. |
| Reports.Reverse | attendance_analyzer.py:389 | The reversal puts the i-th newest point at position n-1-i. |
| Reports.SampleDaysNewestFirst | attendance_analyzer.py:351-358 | The days looked at, `now - 30 i` for i = 0..n-1, stay within the window and strictly decrease, 30 days apart or more. |
| Reports.TrendPointsSampled | attendance_analyzer.py:351-371 | Each collected point is the analysis point of the month of the day it was taken from, one point per day whose month's analysis succeeds. |
| Reports.TrendsOldestFirst | attendance_analyzer.py:387-391 | The returned points run oldest first: point j is the analysis point of the month of day j, and these days strictly increase. |
| Reports.TrendPointsFacts | attendance_analyzer.py:351-371 | Collecting n points fails exactly when the oldest target date, 30(n-1) days back, is before 0001-01-01. Otherwise there are at most n points, because a month whose analysis fails is skipped. |
| Reports.CollectTrendPoints | attendance_analyzer.py:353-371 | The loop computes `TrendPoints`. |
| Reports.GetEmployeeTrends | attendance_analyzer.py:341-391 | The entry point computes `EmployeeTrendsOf`. |
| Reports.CountIssuesByEmployee | attendance_analyzer.py:410-412 | Each employee's count is its number of issues, with 0 for absent employees. |
| Reports.AddToDepartment | attendance_analyzer.py:418-431 | The per-field updates compute `AddEmployee`. A failed analysis adds to the head count only. |
| Reports.AccumulateDepartments | attendance_analyzer.py:414-431 | Each department met holds the totals of its employees, and the departments follow first-occurrence order. |
| Reports.GetDepartmentStatistics | attendance_analyzer.py:393-447 | The result is `DepartmentStatistics` of the employees and the detected issues. |
| Reports.TotalsOfCounts | attendance_analyzer.py:418-431 | A department counts each of its employees once. Compliant employees and failures never exceed them, and with only failures all other totals stay 0. |
| Reports.DepartmentStatisticsFacts | attendance_analyzer.py:433-447 | Each department appears once, and their head counts add up to the number of employees. The result is a permutation of the rows, sorted by compliance rate, highest first. |

## Left out

- Floating point: hours, averages and rates are exact rationals (`real`). The 8-hour and 9-hour tests compare whole seconds. The 80% test `ok/valid >= 0.8` is the exact `5*ok >= 4*valid`. A float rounding at a boundary, and the order of float sort ties, are not modelled.
- Microseconds and time zones are not modelled. Stamps are whole seconds of naive local time.
- `strptime` accepts only ASCII digits here; Python also accepts other Unicode decimal digits.
- Logging, the `async` machinery and the database connection checks of the checker (compliance_checker.py:22-23, 316-321) are left out. A missing connection is one more exception the `Fetch` parameter can return.
- `datetime.now()` in the trends is a parameter.
- The database queries (`get_all_employees`, `get_employee_info`, `get_data_quality_issues`) are parameters: a sequence of rows and a lookup function. Exceptions they raise are not modelled.
- Validation of the pydantic result models is not modelled.
- Reports.GetEmployeeTrends: the model returns the evidently intended `EmployeeTrends` whenever the sampled dates stay in range. The source builds `EmployeeTrends(employee_info=...)` (backend/app/services/attendance_analyzer.py:387-391, the same lines in the root copy) from whatever `get_employee_info` returned. That is either None or a dict with the upper-case keys ID_PERSONA, NOMBRE, APELLIDO and EMAIL (backend/app/db/database_manager.py:209-231). `EmployeeInfo` requires the lower-case fields `id_persona`, `nombre` and `apellido` (backend/app/models/models.py:18-23, 103-104). So as written, the validation by pydantic version 1 (its `BaseSettings` import at backend/app/core/config.py:1) raises a ValidationError on every call, after the loop and outside any try. `Reports.EmployeeTrendsOf` and its lemmas describe the result that validation was meant to accept.
- The analyzer keys days by `date` objects (`.date()` at backend/app/services/attendance_analyzer.py:24, looked up with `datetime(year, month, day).date()` at :92), and the checker keys them by `strftime('%Y-%m-%d')` strings (compliance_checker.py:143). The model keys both by the proleptic ordinal, which is one-to-one with either over years 1..9999.
- The period strings of the verdicts are not modelled; a verdict carries the pair of instants.
- The fallback branch of `_count_weeks_in_period` (compliance_checker.py:300-304) is not modelled: the subtraction it guards cannot raise on valid datetimes.
- Reports.DepartmentOf: a DEPARTAMENTO column present with a NULL value would be grouped under `None` in the source; the model has only "present with a name" and "absent", which means "Unknown". The program's own employee query (`get_all_employees`, backend/app/db/database_manager.py:74-78) selects only ID_PERSONA, NOMBRE, APELLIDO and EMAIL, so every department is "Unknown" there; model rows that carry a department stand for a query the program does not run.
- AttendanceAnalyzer.ParseDailyAttendance: the exception text for a non-datetime stamp, and the text of the date-range error in the trends, are stand-in constants.
- The presentation helper `analyze_weekly_patterns` (attendance_analyzer.py:449-495), which only reformats an analysis, is not part of this model.
- The report generator, the HTTP routes, the scheduler and the database manager are not part of this model.
