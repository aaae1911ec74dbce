/**
 * The records the engine reads and produces: punches as fetched from the
 * attendance table, and the daily, weekly and monthly summaries of the
 * analyzer.
 */
module Models {
  import opened Wrappers
  import opened Calendar
  import opened Stamps

  /** The three-level status of the analyzer; `Warning` marks an employee whose analysis failed. */
  datatype ComplianceStatus = Compliant | NonCompliant | Partial | Warning

  datatype DataQualityIssueType = MissingExit | MissingEntry | MultipleEntries | InvalidSequence

  /**
   * One row of the attendance table: ID_PERSONA, FECHA_FICHADA, PRIORIDAD and
   * IGNORAR. Rows marked to be ignored never reach the engine.
   */
  datatype Punch = Punch(employeeId: int, stamp: Stamp, priority: Option<int>, ignore: Option<int>)

  /**
   * The collaborator that loads an employee's punches between two instants;
   * `Failure` carries the text of the exception it raises.
   */
  type Fetch = (int, Timestamp, Timestamp) -> Result<seq<Punch>, string>

  /** One calendar day of the analyzer; `date` is that day's midnight and hours are exact. */
  datatype DailyAttendance = DailyAttendance(
    date: Timestamp,
    entryTime: Option<Timestamp>,
    exitTime: Option<Timestamp>,
    hoursWorked: Option<real>,
    isComplete: bool,
    meets9h: bool)

  /** One row of the month grid; `weekStart` and `weekEnd` are midnights of its first and last day. */
  datatype WeeklyPattern = WeeklyPattern(
    weekStart: Timestamp,
    weekEnd: Timestamp,
    daysAttended: nat,
    totalHours: real,
    daysDetails: seq<DailyAttendance>,
    meetsPattern: bool)

  datatype MonthlyStats = MonthlyStats(
    employeeId: int,
    year: int,
    month: int,
    totalDaysAttended: nat,
    totalHoursWorked: real,
    averageHoursPerDay: real,
    weeklyPatterns: seq<WeeklyPattern>,
    daysCompliance: ComplianceStatus,
    hoursCompliance: ComplianceStatus,
    overallCompliance: ComplianceStatus,
    weeksWith1Day: nat,
    weeksWith2Days: nat,
    patternCompliance: bool)

  /**
   * A row of the employee table. `department` is `None` when the row has no
   * DEPARTAMENTO column, as the rows of the employee listing never have.
   */
  datatype EmployeeRow = EmployeeRow(id: int, name: string, surname: string, department: Option<string>)

  /** The name columns of the employee lookup. */
  datatype EmployeeName = EmployeeName(name: string, surname: string)

  /** One row of the data-quality query: an employee-day whose punch count is not 2. */
  datatype IssueRow = IssueRow(
    employeeId: int,
    day: Timestamp,
    totalRecords: int,
    firstRecord: Option<Timestamp>,
    lastRecord: Option<Timestamp>)

  datatype DataQualityIssue = DataQualityIssue(
    employeeId: int,
    employeeName: string,
    date: Timestamp,
    issueType: DataQualityIssueType,
    description: string,
    totalRecords: int,
    firstRecord: Option<Timestamp>,
    lastRecord: Option<Timestamp>)
}
