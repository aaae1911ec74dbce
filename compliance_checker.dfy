/**
 * The rule-based checker: punches are grouped by calendar day inside the period
 * [start, end], then three rules are evaluated and ANDed.
 *   Rule 1: at least 6 attended days.
 *   Rule 2: attendance in every period-relative 7-day block, at most 5 required.
 *   Rule 3: at least 6 days with 8 or more hours, pairing a day's sorted punches.
 */
module ComplianceChecker {
  import opened Wrappers
  import opened Calendar
  import opened Text
  import opened Stamps
  import opened Sorting
  import opened Grouping
  import opened Models

  const MIN_DAYS: nat := 6
  const MAX_WEEKS: int := 5
  const MIN_DAYS_WITH_HOURS: nat := 6
  /** Eight hours, in seconds. */
  const MIN_DAY_SECONDS: int := 28800

  const ALL_RULES_MET: string := "Cumple con todas las reglas"
  const NO_DATA: string := "No hay datos de asistencia en el período"
  const ERROR_PREFIX: string := "Error al verificar cumplimiento: "

  // ---------------------------------------------------------------------------
  // Grouping by day
  // ---------------------------------------------------------------------------

  /** The number of punches whose stamp can be coerced to a datetime. */
  function UsableCount(records: seq<Punch>): (n: nat)
    ensures n <= |records|
  {
    if records == [] then 0
    else UsableCount(records[..|records| - 1]) + (if StampTime(records[|records| - 1].stamp).Some? then 1 else 0)
  }

  /** Appending a punch adds one to the usable count exactly when its stamp can be read. */
  lemma UsableCountAppend(records: seq<Punch>, p: Punch)
    ensures UsableCount(records + [p]) == UsableCount(records) + if StampTime(p.stamp).Some? then 1 else 0
  {
    assert (records + [p])[..|records|] == records;
  }

  /**
   * The day a punch is filed under. A punch is dropped when its stamp is neither
   * a datetime nor a string in the `%Y-%m-%d %H:%M:%S` format, and, when both
   * bounds are given, when it lies outside [start, end].
   */
  function KeepDay(p: Punch, start: Option<Timestamp>, end: Option<Timestamp>): (r: Option<int>)
    ensures r.Some? <==>
      && StampTime(p.stamp).Some?
      && (start.Some? && end.Some? ==> start.value <= StampTime(p.stamp).value <= end.value)
    ensures r.Some? ==> r.value == DayOf(StampTime(p.stamp).value)
  {
    match StampTime(p.stamp)
    case None => None
    case Some(t) =>
      if start.Some? && end.Some? && (t < start.value || t > end.value) then None
      else Some(DayOf(t))
  }

  function DayKey(start: Option<Timestamp>, end: Option<Timestamp>): Punch -> Option<int> {
    (p: Punch) => KeepDay(p, start, end)
  }

  /** The debugging counters of the grouping pass. */
  datatype GroupCounters = GroupCounters(totalRecords: nat, inPeriod: nat, outsidePeriod: nat, processed: nat)

  /**
   * Files each usable punch under its day, in input order, and counts what was
   * kept and dropped. The day groups and their key order are those of
   * `GroupBy`/`KeyOrder`, whose lemmas say what they hold.
   */
  method GroupByDay(records: seq<Punch>, start: Option<Timestamp>, end: Option<Timestamp>)
    returns (groups: map<int, seq<Punch>>, order: seq<int>, counters: GroupCounters)
    ensures groups == GroupBy(records, DayKey(start, end))
    ensures order == KeyOrder(records, DayKey(start, end))
    ensures counters.totalRecords == |records|
    ensures counters.processed == |Kept(records, DayKey(start, end))|
    ensures start.Some? && end.Some? ==>
      counters.inPeriod == counters.processed
      && counters.inPeriod + counters.outsidePeriod == UsableCount(records)
    ensures !(start.Some? && end.Some?) ==>
      counters.inPeriod == 0 && counters.outsidePeriod == 0
      && counters.processed == UsableCount(records)
  {
    var key := DayKey(start, end);
    var bounded := start.Some? && end.Some?;
    groups := map[];
    order := [];
    var inPeriod, outsidePeriod, processed := 0, 0, 0;
    for i := 0 to |records|
      invariant groups == GroupBy(records[..i], key)
      invariant order == KeyOrder(records[..i], key)
      invariant processed == |Kept(records[..i], key)|
      invariant inPeriod == if bounded then processed else 0
      invariant !bounded ==> outsidePeriod == 0
      invariant processed + outsidePeriod == UsableCount(records[..i])
    {
      var record := records[i];
      assert records[..i + 1] == records[..i] + [record];
      UsableCountAppend(records[..i], record);
      // a datetime is used as is, a string goes through strptime; any other
      // value, or a string strptime rejects, is logged and skipped
      var coerced := StampTime(record.stamp);
      if coerced.None? {
        AppendUnkeyed(records[..i], key, record);
        continue;
      }
      var t := coerced.value;
      assert StampTime(record.stamp) == Some(t);
      if bounded {
        if t < start.value || t > end.value {
          outsidePeriod := outsidePeriod + 1;
          AppendUnkeyed(records[..i], key, record);
          continue;
        }
        inPeriod := inPeriod + 1;
      }
      assert key(record) == Some(DayOf(t));
      groups, order := FileUnderDay(groups, order, records[..i], key, record, DayOf(t));
      processed := processed + 1;
    }
    assert records[..|records|] == records;
    counters := GroupCounters(|records|, inPeriod, outsidePeriod, processed);
  }

  /** Files one kept punch under its day, opening the day's group (and its place in the key order) when it is new. */
  method FileUnderDay(groups: map<int, seq<Punch>>, order: seq<int>, ghost xs: seq<Punch>,
                      key: Punch -> Option<int>, record: Punch, day: int)
    returns (groups': map<int, seq<Punch>>, order': seq<int>)
    requires groups == GroupBy(xs, key) && order == KeyOrder(xs, key)
    requires key(record) == Some(day)
    ensures groups' == GroupBy(xs + [record], key) && order' == KeyOrder(xs + [record], key)
    ensures Kept(xs + [record], key) == Kept(xs, key) + [record]
  {
    AppendKeyed(xs, key, record, day);
    KeyOrderListsKeys(xs, key);
    groups', order' := groups, order;
    if day !in groups' {
      groups' := groups'[day := []];
      order' := order' + [day];
    }
    groups' := groups'[day := groups'[day] + [record]];
  }

  /** A kept punch is filed under its own day, and every punch of a day's group lies in the period. */
  lemma GroupMembersInPeriod(records: seq<Punch>, start: Timestamp, end: Timestamp, day: int, p: Punch)
    requires day in GroupBy(records, DayKey(Some(start), Some(end)))
    requires p in GroupBy(records, DayKey(Some(start), Some(end)))[day]
    ensures p in records
    ensures StampTime(p.stamp).Some?
    ensures start <= StampTime(p.stamp).value <= end
    ensures DayOf(StampTime(p.stamp).value) == day
  {
    GroupByMembers(records, DayKey(Some(start), Some(end)), day);
  }

  /** A punch whose stamp cannot be coerced to a datetime is in no group: it is skipped, not an error. */
  lemma UnusablePunchSkipped(records: seq<Punch>, start: Option<Timestamp>, end: Option<Timestamp>, p: Punch, day: int)
    requires StampTime(p.stamp).None?
    requires day in GroupBy(records, DayKey(start, end))
    ensures p !in GroupBy(records, DayKey(start, end))[day]
  {
    GroupByMembers(records, DayKey(start, end), day);
  }

  /** Every punch in the period is filed under its day. */
  lemma PeriodPunchFiled(records: seq<Punch>, start: Timestamp, end: Timestamp, p: Punch)
    requires p in records
    requires StampTime(p.stamp).Some? && start <= StampTime(p.stamp).value <= end
    ensures DayOf(StampTime(p.stamp).value) in GroupBy(records, DayKey(Some(start), Some(end)))
    ensures p in GroupBy(records, DayKey(Some(start), Some(end)))[DayOf(StampTime(p.stamp).value)]
  {
    var key := DayKey(Some(start), Some(end));
    var day := DayOf(StampTime(p.stamp).value);
    WithKeyHasDay(records, key, p, day);
    GroupByMembers(records, key, day);
  }

  lemma WithKeyHasDay(records: seq<Punch>, key: Punch -> Option<int>, p: Punch, day: int)
    requires p in records && key(p) == Some(day)
    ensures p in WithKey(records, key, day)
  {
    WithKeyHas(records, key, p);
  }

  // ---------------------------------------------------------------------------
  // Rule 1: minimum days
  // ---------------------------------------------------------------------------

  datatype MinimumDaysResult = MinimumDaysResult(
    compliant: bool,
    daysAttended: nat,
    minRequired: nat,
    totalRecordsAvailable: int,
    reason: string)

  function MinimumDaysReason(days: nat): string {
    "Se requieren mínimo " + NatToString(MIN_DAYS) + " días, se asistió " + NatToString(days) + " días"
  }

  /**
   * Rule 1. The reason reports the attended days; it also reports the record
   * total exactly when records were fetched but no day survived the grouping.
   */
  function CheckMinimumDays(dailyAttendance: map<int, seq<Punch>>, totalRecords: int): (r: MinimumDaysResult)
    ensures r.compliant <==> |dailyAttendance| >= MIN_DAYS
    ensures r.daysAttended == |dailyAttendance| && r.minRequired == MIN_DAYS
    ensures r.totalRecordsAvailable == totalRecords
    ensures MinimumDaysReason(r.daysAttended) <= r.reason
    ensures r.reason != MinimumDaysReason(r.daysAttended) <==> totalRecords > 0 && |dailyAttendance| == 0
  {
    var days := |dailyAttendance|;
    var reason :=
      if totalRecords > 0 && days == 0 then
        MinimumDaysReason(days) + " (Total registros: " + IntToString(totalRecords)
          + ", pero ninguno en el período especificado)"
      else MinimumDaysReason(days);
    MinimumDaysResult(days >= MIN_DAYS, days, MIN_DAYS, totalRecords, reason)
  }

  // ---------------------------------------------------------------------------
  // Rule 2: weekly distribution
  // ---------------------------------------------------------------------------

  /** `(b - a).days`: whole days from `a` to `b`, rounded down. */
  function DaysBetween(a: Timestamp, b: Timestamp): int {
    (b - a) / SECONDS_PER_DAY
  }

  /** The period-relative week of a day, counted from the midnight of that day. */
  function WeekIndex(day: int, start: Timestamp): int {
    DaysBetween(start, Midnight(day)) / 7 + 1
  }

  /**
   * The number of 7-day blocks the period touches, at least 1 and at most 5.
   */
  function CountWeeksInPeriod(start: Timestamp, end: Timestamp): (w: int)
    ensures 1 <= w <= MAX_WEEKS
    ensures DaysBetween(start, end) < 0 ==> w == 1
    ensures 0 <= DaysBetween(start, end) < 7 * MAX_WEEKS ==>
      7 * (w - 1) <= DaysBetween(start, end) < 7 * w
    ensures DaysBetween(start, end) >= 7 * MAX_WEEKS ==> w == MAX_WEEKS
  {
    var weeks := Max(1, DaysBetween(start, end) / 7 + 1);
    if weeks > MAX_WEEKS then MAX_WEEKS else weeks
  }

  /** The distinct week indices of the days. */
  function WeeksOf(days: seq<int>, start: Timestamp): (ws: set<int>)
    ensures forall i :: 0 <= i < |days| ==> WeekIndex(days[i], start) in ws
    ensures forall w :: w in ws ==> exists i :: 0 <= i < |days| && WeekIndex(days[i], start) == w
  {
    if days == [] then {}
    else
      var init := days[..|days| - 1];
      var ws := WeeksOf(init, start) + {WeekIndex(days[|days| - 1], start)};
      assert forall i :: 0 <= i < |init| ==> init[i] == days[i];
      ws
  }

  datatype WeeklyDistributionResult = WeeklyDistributionResult(
    compliant: bool,
    weeksWithAttendance: nat,
    totalWeeksInPeriod: int,
    minWeeksRequired: int,
    reason: string)

  function WeeklyReason(required: int, attended: nat): string {
    "Se requiere asistencia en al menos " + IntToString(required) + " semana(s), se asistió en "
      + NatToString(attended) + " semana(s)"
  }

  /** Rule 2 as a value: compliant iff the days touch at least as many weeks as the period requires. */
  function WeeklyDistribution(days: seq<int>, start: Timestamp, end: Timestamp): (r: WeeklyDistributionResult)
    ensures r.weeksWithAttendance == |WeeksOf(days, start)|
    ensures r.totalWeeksInPeriod == CountWeeksInPeriod(start, end)
    ensures r.minWeeksRequired == Max(1, r.totalWeeksInPeriod)
    ensures 1 <= r.minWeeksRequired <= MAX_WEEKS
    ensures r.compliant <==> |WeeksOf(days, start)| >= r.minWeeksRequired
    ensures r.reason == WeeklyReason(r.minWeeksRequired, r.weeksWithAttendance)
  {
    var weeks := WeeksOf(days, start);
    var total := CountWeeksInPeriod(start, end);
    var required := Max(1, total);
    WeeklyDistributionResult(|weeks| >= required, |weeks|, total, required, WeeklyReason(required, |weeks|))
  }

  /** Rule 2: collects the week of each day key into a set. */
  method CheckWeeklyDistribution(days: seq<int>, start: Timestamp, end: Timestamp)
    returns (r: WeeklyDistributionResult)
    ensures r == WeeklyDistribution(days, start, end)
  {
    var weeks: set<int> := {};
    for i := 0 to |days|
      invariant weeks == WeeksOf(days[..i], start)
    {
      assert days[..i + 1][..i] == days[..i];
      weeks := weeks + {WeekIndex(days[i], start)};
    }
    assert days[..|days|] == days;
    var total := CountWeeksInPeriod(start, end);
    var required := Max(1, total);
    r := WeeklyDistributionResult(|weeks| >= required, |weeks|, total, required, WeeklyReason(required, |weeks|));
  }

  /**
   * A punch on the first day of the period lands in week 1 when the period
   * starts at midnight and in week 0 when it starts later in the day.
   */
  lemma StartDayWeek(start: Timestamp)
    ensures start % SECONDS_PER_DAY == 0 ==> WeekIndex(DayOf(start), start) == 1
    ensures start % SECONDS_PER_DAY != 0 ==> WeekIndex(DayOf(start), start) == 0
  {
  }

  /**
   * The week of a punch in the period is between 0 and the last block of the
   * period, and 0 only for a punch on the first day of a period that does not
   * start at midnight.
   */
  lemma WeekIndexInPeriod(t: Timestamp, start: Timestamp, end: Timestamp)
    requires start <= t <= end
    ensures 0 <= WeekIndex(DayOf(t), start) <= DaysBetween(start, end) / 7 + 1
    ensures WeekIndex(DayOf(t), start) == 0 ==> DayOf(t) == DayOf(start) && start % SECONDS_PER_DAY != 0
  {
    var m := Midnight(DayOf(t));
    assert t - SECONDS_PER_DAY < m <= t;
    assert DaysBetween(start, m) <= DaysBetween(start, end);
    if DayOf(t) != DayOf(start) {
      assert DayOf(t) > DayOf(start);
      assert m >= start;
    }
  }

  // ---------------------------------------------------------------------------
  // Rule 3: minimum hours
  // ---------------------------------------------------------------------------

  function StampsOf(records: seq<Punch>): (vs: seq<Stamp>)
    ensures |vs| == |records|
    ensures forall i :: 0 <= i < |records| ==> vs[i] == records[i].stamp
  {
    seq(|records|, i requires 0 <= i < |records| => records[i].stamp)
  }

  /** Python's `<=` between two FECHA_FICHADA values of the same kind. */
  predicate StampLe(a: Stamp, b: Stamp) {
    match (a, b)
    case (DateTimeValue(x), DateTimeValue(y)) => x <= y
    case (StringValue(x), StringValue(y)) => LexLe(x, y)
    case _ => false
  }

  predicate AllDateTimes(vs: seq<Stamp>) {
    forall i :: 0 <= i < |vs| ==> vs[i].DateTimeValue?
  }

  predicate AllStrings(vs: seq<Stamp>) {
    forall i :: 0 <= i < |vs| ==> vs[i].StringValue?
  }

  /**
   * `sorted` by the raw stamp values. Comparing a datetime with a string, or
   * values that are neither, raises TypeError: `None`. (When every value is
   * neither, the sort may succeed, but every pair is then skipped and the day
   * fails all the same.)
   */
  function SortStamps(vs: seq<Stamp>): (r: Option<seq<Stamp>>)
    ensures r.Some? <==> |vs| <= 1 || AllDateTimes(vs) || AllStrings(vs)
    ensures r.Some? ==> |r.value| == |vs| && multiset(r.value) == multiset(vs)
    ensures r.Some? ==> SortedBy(r.value, StampLe)
  {
    if |vs| <= 1 then
      Some(SortBy(vs, StampLe))
    else if AllDateTimes(vs) then
      StampLeOrdersDateTimes(vs);
      SortBySorted(vs, StampLe);
      Some(SortBy(vs, StampLe))
    else if AllStrings(vs) then
      StampLeOrdersStrings(vs);
      SortBySorted(vs, StampLe);
      Some(SortBy(vs, StampLe))
    else
      None
  }

  /** What the conversion of one value in the pairing loop gives. */
  datatype Coerced = Instant(t: Timestamp) | NotADate | ParseError

  function CoerceStamp(st: Stamp): Coerced {
    match st
    case DateTimeValue(t) => Instant(t)
    case StringValue(s) => (match ParseStamp(s) case Some(t) => Instant(t) case None => ParseError)
    case OtherValue => NotADate
  }

  datatype PairOutcome = Worked(seconds: int) | Skipped | Raised

  /** One entry/exit pair: a non-date value skips the pair, a bad string raises. */
  function PairSeconds(entry: Stamp, exit: Stamp): PairOutcome {
    match CoerceStamp(entry)
    case ParseError => Raised
    case NotADate => Skipped
    case Instant(a) =>
      match CoerceStamp(exit)
      case ParseError => Raised
      case NotADate => Skipped
      case Instant(b) => Worked(b - a)
  }

  /** Seconds worked over the pairs 1+2, 3+4, ...; `None` when a conversion raised. */
  function PairedSeconds(vs: seq<Stamp>): Option<int> {
    if |vs| < 2 then Some(0)
    else
      match PairSeconds(vs[0], vs[1])
      case Raised => None
      case Skipped => PairedSeconds(vs[2..])
      case Worked(n) => (match PairedSeconds(vs[2..]) case None => None case Some(m) => Some(n + m))
  }

  /** The seconds a day's punches add up to, or `None` when the computation raised. */
  function DaySeconds(dayRecords: seq<Punch>): Option<int> {
    match SortStamps(StampsOf(dayRecords))
    case None => None
    case Some(vs) => PairedSeconds(vs)
  }

  /** Whether a day counts for rule 3: two or more punches, no error, and 8 hours or more. */
  predicate DayMeets(dayRecords: seq<Punch>) {
    |dayRecords| >= 2 && DaySeconds(dayRecords).Some? && DaySeconds(dayRecords).value >= MIN_DAY_SECONDS
  }

  function AddTo(total: int, s: Option<int>): Option<int> {
    match s
    case None => None
    case Some(m) => Some(total + m)
  }

  /** `_day_meets_minimum_hours`: sorts the day's punches and sums the pairs in a stepped loop. */
  method DayMeetsMinimumHours(dayRecords: seq<Punch>) returns (meets: bool)
    ensures meets == DayMeets(dayRecords)
  {
    if |dayRecords| < 2 {
      return false;
    }
    var sorted := SortStamps(StampsOf(dayRecords));
    if sorted.None? {
      return false;
    }
    var total := SumPairs(sorted.value);
    return total.Some? && total.value >= MIN_DAY_SECONDS;
  }

  /** The pairing loop: entry i and exit i + 1 for i = 0, 2, 4, ...; `None` when a conversion raised. */
  method SumPairs(vs: seq<Stamp>) returns (r: Option<int>)
    ensures r == PairedSeconds(vs)
  {
    var total := 0;
    var i := 0;
    while i < |vs| - 1
      invariant 0 <= i <= |vs|
      invariant PairedSeconds(vs) == AddTo(total, PairedSeconds(vs[i..]))
      decreases |vs| - i
    {
      PairStep(vs, i);
      var entry := CoerceStamp(vs[i]);
      if entry.ParseError? {
        return None;
      }
      if entry.NotADate? {
        i := i + 2;
        continue;
      }
      var exit := CoerceStamp(vs[i + 1]);
      if exit.ParseError? {
        return None;
      }
      if exit.NotADate? {
        i := i + 2;
        continue;
      }
      total := total + (exit.t - entry.t);
      i := i + 2;
    }
    return Some(total);
  }

  /** One turn of the pairing loop, stated on the suffix from `i`. */
  lemma PairStep(vs: seq<Stamp>, i: nat)
    requires i + 1 < |vs|
    ensures PairedSeconds(vs[i..]) ==
      match PairSeconds(vs[i], vs[i + 1])
      case Raised => None
      case Skipped => PairedSeconds(vs[i + 2..])
      case Worked(n) => AddTo(n, PairedSeconds(vs[i + 2..]))
  {
    assert vs[i..][2..] == vs[i + 2..];
  }

  /** With an even number of values before it, a last unpaired value changes nothing. */
  lemma {:induction false} OddTrailingIgnored(vs: seq<Stamp>, last: Stamp)
    requires |vs| % 2 == 0
    ensures PairedSeconds(vs + [last]) == PairedSeconds(vs)
  {
    if |vs| >= 2 {
      assert (vs + [last])[2..] == vs[2..] + [last];
      OddTrailingIgnored(vs[2..], last);
    }
  }

  predicate ChronologicallySorted(vs: seq<Stamp>)
    requires AllDateTimes(vs)
  {
    forall i, j :: 0 <= i < j < |vs| ==> vs[i].t <= vs[j].t
  }

  /** Sorted datetimes pair up to a non-negative time no longer than the span from first to last. */
  lemma {:induction false} ChronologicalPairsBounded(vs: seq<Stamp>)
    requires |vs| >= 1 && AllDateTimes(vs) && ChronologicallySorted(vs)
    ensures PairedSeconds(vs).Some?
    ensures 0 <= PairedSeconds(vs).value <= vs[|vs| - 1].t - vs[0].t
  {
    if |vs| >= 2 {
      var rest := vs[2..];
      if |rest| >= 1 {
        ChronologicalPairsBounded(rest);
        assert rest[|rest| - 1] == vs[|vs| - 1];
        assert vs[1].t <= rest[0].t;
      }
    }
  }

  lemma StampLeOrdersDateTimes(vs: seq<Stamp>)
    requires AllDateTimes(vs)
    ensures TotalOn(vs, StampLe) && TransitiveOn(vs, StampLe)
  {
    assert forall a :: a in vs ==> a.DateTimeValue?;
  }

  /** Between string stamps `<=` is the lexicographic order, which is total and transitive. */
  lemma StampLeOrdersStrings(vs: seq<Stamp>)
    requires AllStrings(vs)
    ensures TotalOn(vs, StampLe) && TransitiveOn(vs, StampLe)
  {
    forall a, b | a in vs && b in vs
      ensures StampLe(a, b) || StampLe(b, a)
    {
      LexLeTotal(a.s, b.s);
    }
    forall a, b, c | a in vs && b in vs && c in vs && StampLe(a, b) && StampLe(b, c)
      ensures StampLe(a, c)
    {
      LexLeTransitive(a.s, b.s, c.s);
    }
  }

  lemma SortedDateTimes(vs: seq<Stamp>)
    requires AllDateTimes(vs)
    ensures AllDateTimes(SortBy(vs, StampLe))
    ensures ChronologicallySorted(SortBy(vs, StampLe))
    ensures forall j :: 0 <= j < |vs| ==> SortBy(vs, StampLe)[j] in multiset(vs)
  {
    var sv := SortBy(vs, StampLe);
    forall j | 0 <= j < |sv| ensures sv[j].DateTimeValue? {
      assert sv[j] in multiset(vs);
    }
    StampLeOrdersDateTimes(vs);
    SortBySorted(vs, StampLe);
  }

  /**
   * For a day whose punches are all datetimes between `lo` and `hi`, the time
   * worked is defined, non-negative and at most `hi - lo`: within one calendar
   * day it is below 24 hours, and 8 hours need punches at least 8 hours apart.
   */
  lemma DaySecondsBounded(dayRecords: seq<Punch>, lo: Timestamp, hi: Timestamp)
    requires |dayRecords| >= 1
    requires forall i :: 0 <= i < |dayRecords| ==>
      dayRecords[i].stamp.DateTimeValue? && lo <= dayRecords[i].stamp.t <= hi
    ensures DaySeconds(dayRecords).Some?
    ensures 0 <= DaySeconds(dayRecords).value <= hi - lo
  {
    var vs := StampsOf(dayRecords);
    assert AllDateTimes(vs);
    SortedDateTimes(vs);
    var sv := SortBy(vs, StampLe);
    assert sv[0] in multiset(vs) && sv[|sv| - 1] in multiset(vs);
    assert lo <= sv[0].t && sv[|sv| - 1].t <= hi;
    ChronologicalPairsBounded(sv);
  }

  /** A day of exactly two datetime punches worked the time between them. */
  lemma TwoPunchDay(dayRecords: seq<Punch>)
    requires |dayRecords| == 2
    requires dayRecords[0].stamp.DateTimeValue? && dayRecords[1].stamp.DateTimeValue?
    ensures DaySeconds(dayRecords) == Some(Max(dayRecords[0].stamp.t, dayRecords[1].stamp.t)
                                          - Min(dayRecords[0].stamp.t, dayRecords[1].stamp.t))
  {
    var a, b := dayRecords[0].stamp, dayRecords[1].stamp;
    assert StampsOf(dayRecords) == [a, b];
    SortTwoStamps(a, b);
    if a.t <= b.t {
      PairedTwo(a, b);
    } else {
      PairedTwo(b, a);
    }
  }

  /** Two datetimes sort into chronological order. */
  lemma SortTwoStamps(a: Stamp, b: Stamp)
    requires a.DateTimeValue? && b.DateTimeValue?
    ensures SortBy([a, b], StampLe) == if a.t <= b.t then [a, b] else [b, a]
  {
    assert [a, b][1..] == [b];
    assert SortBy([b], StampLe) == Insert(b, SortBy([], StampLe), StampLe) == [b];
    if a.t > b.t {
      assert Insert(a, [b], StampLe) == [b] + Insert(a, [], StampLe);
    }
  }

  /** A pair of datetimes is credited the exit minus the entry. */
  lemma PairedTwo(a: Stamp, b: Stamp)
    requires a.DateTimeValue? && b.DateTimeValue?
    ensures PairedSeconds([a, b]) == Some(b.t - a.t)
  {
    assert [a, b][2..] == [];
  }


  datatype MinimumHoursResult = MinimumHoursResult(
    compliant: bool,
    daysMeetingHours: nat,
    totalDays: nat,
    minDaysRequired: nat,
    reason: string)

  function MinimumHoursReason(days: nat): string {
    "Se requieren mínimo " + NatToString(MIN_DAYS_WITH_HOURS) + " días con 8+ horas, se cumplió en "
      + NatToString(days) + " días"
  }

  /** The number of listed days whose group meets the minimum hours. */
  function MeetingDays(groups: map<int, seq<Punch>>, order: seq<int>): (n: nat)
    ensures n <= |order|
  {
    if order == [] then 0
    else
      var d := order[|order| - 1];
      MeetingDays(groups, order[..|order| - 1]) + (if d in groups && DayMeets(groups[d]) then 1 else 0)
  }

  /** Rule 3 as a value: compliant iff at least 6 days meet the minimum hours. */
  function MinimumHours(groups: map<int, seq<Punch>>, order: seq<int>): (r: MinimumHoursResult)
    requires ListsKeys(groups, order)
    ensures r.daysMeetingHours == MeetingDays(groups, order)
    ensures r.daysMeetingHours <= r.totalDays == |groups|
    ensures r.minDaysRequired == MIN_DAYS_WITH_HOURS
    ensures r.compliant <==> r.daysMeetingHours >= MIN_DAYS_WITH_HOURS
    ensures r.reason == MinimumHoursReason(r.daysMeetingHours)
  {
    ListedKeysCount(groups, order);
    var n := MeetingDays(groups, order);
    MinimumHoursResult(n >= MIN_DAYS_WITH_HOURS, n, |groups|, MIN_DAYS_WITH_HOURS, MinimumHoursReason(n))
  }

  /** Rule 3: counts, in dictionary order, the days that meet the minimum hours. */
  method CheckMinimumHours(groups: map<int, seq<Punch>>, order: seq<int>) returns (r: MinimumHoursResult)
    requires ListsKeys(groups, order)
    ensures r == MinimumHours(groups, order)
  {
    var daysMeetingHours := 0;
    for i := 0 to |order|
      invariant daysMeetingHours == MeetingDays(groups, order[..i])
    {
      assert order[..i + 1][..i] == order[..i];
      var day := order[i];
      var meets := DayMeetsMinimumHours(groups[day]);
      if meets {
        daysMeetingHours := daysMeetingHours + 1;
      }
    }
    assert order[..|order|] == order;
    ListedKeysCount(groups, order);
    r := MinimumHoursResult(daysMeetingHours >= MIN_DAYS_WITH_HOURS, daysMeetingHours, |groups|,
                            MIN_DAYS_WITH_HOURS, MinimumHoursReason(daysMeetingHours));
  }

  // ---------------------------------------------------------------------------
  // Verdict
  // ---------------------------------------------------------------------------

  /** The reasons of the failing rules, in rule order, each prefixed with its rule number. */
  function FailedReasons(r1: MinimumDaysResult, r2: WeeklyDistributionResult, r3: MinimumHoursResult): (rs: seq<string>)
    ensures |rs| == (if r1.compliant then 0 else 1) + (if r2.compliant then 0 else 1) + (if r3.compliant then 0 else 1)
    ensures forall s :: s in rs ==> "Regla " <= s
  {
    (if r1.compliant then [] else ["Regla 1: " + r1.reason])
      + (if r2.compliant then [] else ["Regla 2: " + r2.reason])
      + (if r3.compliant then [] else ["Regla 3: " + r3.reason])
  }

  /** Rule n's reason is listed exactly when rule n fails, and the listing keeps rule order. */
  lemma FailedReasonsListFailingRules(r1: MinimumDaysResult, r2: WeeklyDistributionResult, r3: MinimumHoursResult)
    ensures ("Regla 1: " + r1.reason in FailedReasons(r1, r2, r3)) <==> !r1.compliant
    ensures ("Regla 2: " + r2.reason in FailedReasons(r1, r2, r3)) <==> !r2.compliant
    ensures ("Regla 3: " + r3.reason in FailedReasons(r1, r2, r3)) <==> !r3.compliant
    ensures !r1.compliant ==> FailedReasons(r1, r2, r3)[0] == "Regla 1: " + r1.reason
    ensures r3.compliant == false ==> FailedReasons(r1, r2, r3)[|FailedReasons(r1, r2, r3)| - 1] == "Regla 3: " + r3.reason
  {
    var rs := FailedReasons(r1, r2, r3);
    forall s | s in rs ensures s[..9] == "Regla 1: " || s[..9] == "Regla 2: " || s[..9] == "Regla 3: " {
    }
    forall s | s in rs && s[..9] == "Regla 1: " ensures !r1.compliant && s == "Regla 1: " + r1.reason {
    }
    forall s | s in rs && s[..9] == "Regla 2: " ensures !r2.compliant && s == "Regla 2: " + r2.reason {
    }
    forall s | s in rs && s[..9] == "Regla 3: " ensures !r3.compliant && s == "Regla 3: " + r3.reason {
    }
    assert ("Regla 1: " + r1.reason)[..9] == "Regla 1: ";
    assert ("Regla 2: " + r2.reason)[..9] == "Regla 2: ";
    assert ("Regla 3: " + r3.reason)[..9] == "Regla 3: ";
  }

  /**
   * The overall reason: "Cumple con todas las reglas" exactly when every rule
   * holds, otherwise the failing rules' reasons joined by "; ".
   */
  function OverallReason(r1: MinimumDaysResult, r2: WeeklyDistributionResult, r3: MinimumHoursResult): (reason: string)
    ensures reason == ALL_RULES_MET <==> r1.compliant && r2.compliant && r3.compliant
    ensures !(r1.compliant && r2.compliant && r3.compliant) ==> reason == Join(FailedReasons(r1, r2, r3), "; ")
  {
    if r1.compliant && r2.compliant && r3.compliant then ALL_RULES_MET
    else
      var rs := FailedReasons(r1, r2, r3);
      var joined := Join(rs, "; ");
      assert "Regla " <= rs[0] <= joined;
      assert joined[0] == 'R' != ALL_RULES_MET[0];
      joined
  }

  datatype Details = Details(
    rule1: MinimumDaysResult,
    rule2: WeeklyDistributionResult,
    rule3: MinimumHoursResult,
    dailyAttendance: map<int, seq<Punch>>,
    dayOrder: seq<int>)

  datatype Analysis = Analysis(overallCompliance: bool, reason: string, details: Details)

  /** `_analyze_compliance` as a value: the period's day groups judged by the three rules. */
  function AnalysisOf(records: seq<Punch>, start: Timestamp, end: Timestamp): (a: Analysis)
    ensures a.details.dailyAttendance == GroupBy(records, DayKey(Some(start), Some(end)))
    ensures a.details.dayOrder == KeyOrder(records, DayKey(Some(start), Some(end)))
    ensures a.overallCompliance <==>
      && |a.details.dailyAttendance| >= MIN_DAYS
      && |WeeksOf(a.details.dayOrder, start)| >= CountWeeksInPeriod(start, end)
      && MeetingDays(a.details.dailyAttendance, a.details.dayOrder) >= MIN_DAYS_WITH_HOURS
    ensures a.overallCompliance <==> a.reason == ALL_RULES_MET
  {
    var key := DayKey(Some(start), Some(end));
    var groups := GroupBy(records, key);
    var order := KeyOrder(records, key);
    KeyOrderListsKeys(records, key);
    var r1 := CheckMinimumDays(groups, |records|);
    var r2 := WeeklyDistribution(order, start, end);
    var r3 := MinimumHours(groups, order);
    Analysis(r1.compliant && r2.compliant && r3.compliant, OverallReason(r1, r2, r3),
             Details(r1, r2, r3, groups, order))
  }

  /** `_analyze_compliance`: groups the punches and runs the three rule checks. */
  method AnalyzeCompliance(records: seq<Punch>, start: Timestamp, end: Timestamp) returns (a: Analysis)
    ensures a == AnalysisOf(records, start, end)
  {
    var groups, order, _ := GroupByDay(records, Some(start), Some(end));
    KeyOrderListsKeys(records, DayKey(Some(start), Some(end)));
    var r1 := CheckMinimumDays(groups, |records|);
    var r2 := CheckWeeklyDistribution(order, start, end);
    var r3 := CheckMinimumHours(groups, order);
    var overall := r1.compliant && r2.compliant && r3.compliant;
    a := Analysis(overall, OverallReason(r1, r2, r3), Details(r1, r2, r3, groups, order));
  }

  /** The answer for one employee; the period is the pair of instants it was asked for. */
  datatype Verdict = Verdict(
    employeeId: int,
    period: (Timestamp, Timestamp),
    compliance: bool,
    reason: string,
    details: Option<Details>)

  /** `check_employee_compliance` as a value; `Failure` is the exception it lets through. */
  function EmployeeVerdict(fetch: Fetch, employeeId: int, start: Timestamp, end: Timestamp): Result<Verdict, string> {
    match fetch(employeeId, start, end)
    case Failure(e) => Failure(e)
    case Success(records) =>
      if records == [] then Success(Verdict(employeeId, (start, end), false, NO_DATA, None))
      else
        var a := AnalysisOf(records, start, end);
        Success(Verdict(employeeId, (start, end), a.overallCompliance, a.reason, Some(a.details)))
  }

  /** A fetch error propagates; no punches is a failed verdict; otherwise the verdict is the analysis. */
  lemma EmployeeVerdictCases(fetch: Fetch, employeeId: int, start: Timestamp, end: Timestamp)
    ensures fetch(employeeId, start, end).Failure? <==> EmployeeVerdict(fetch, employeeId, start, end).Failure?
    ensures fetch(employeeId, start, end) == Success([]) ==>
      EmployeeVerdict(fetch, employeeId, start, end) == Success(Verdict(employeeId, (start, end), false, NO_DATA, None))
    ensures EmployeeVerdict(fetch, employeeId, start, end).Success? ==>
      var v := EmployeeVerdict(fetch, employeeId, start, end).value;
      v.employeeId == employeeId && (v.compliance <==> v.reason == ALL_RULES_MET)
  {
  }

  method CheckEmployeeCompliance(fetch: Fetch, employeeId: int, start: Timestamp, end: Timestamp)
    returns (r: Result<Verdict, string>)
    ensures r == EmployeeVerdict(fetch, employeeId, start, end)
  {
    var fetched := fetch(employeeId, start, end);
    if fetched.Failure? {
      return Failure(fetched.error);
    }
    var records := fetched.value;
    if records == [] {
      return Success(Verdict(employeeId, (start, end), false, NO_DATA, None));
    }
    var a := AnalyzeCompliance(records, start, end);
    return Success(Verdict(employeeId, (start, end), a.overallCompliance, a.reason, Some(a.details)));
  }

  /** The entry of the batch for one employee: its verdict, or a failed verdict carrying the error. */
  function BatchEntry(fetch: Fetch, employeeId: int, start: Timestamp, end: Timestamp): Verdict {
    match EmployeeVerdict(fetch, employeeId, start, end)
    case Success(v) => v
    case Failure(e) => Verdict(employeeId, (start, end), false, ERROR_PREFIX + e, None)
  }

  /** An employee whose check raises gets a failed verdict whose reason carries the error text. */
  lemma BatchEntryOnError(fetch: Fetch, employeeId: int, start: Timestamp, end: Timestamp)
    requires fetch(employeeId, start, end).Failure?
    ensures BatchEntry(fetch, employeeId, start, end).employeeId == employeeId
    ensures !BatchEntry(fetch, employeeId, start, end).compliance
    ensures BatchEntry(fetch, employeeId, start, end).reason == ERROR_PREFIX + fetch(employeeId, start, end).error
  {
  }

  /**
   * `check_multiple_employees_compliance`: one result per id, in input order;
   * each is the employee's own verdict, or a failed one when its check raised.
   */
  method CheckMultipleEmployeesCompliance(fetch: Fetch, employeeIds: seq<int>, start: Timestamp, end: Timestamp)
    returns (results: seq<Verdict>)
    ensures |results| == |employeeIds|
    ensures forall i :: 0 <= i < |employeeIds| ==> results[i] == BatchEntry(fetch, employeeIds[i], start, end)
  {
    results := [];
    for i := 0 to |employeeIds|
      invariant |results| == i
      invariant forall j :: 0 <= j < i ==> results[j] == BatchEntry(fetch, employeeIds[j], start, end)
    {
      var entry := CheckOneOfBatch(fetch, employeeIds[i], start, end);
      results := results + [entry];
    }
  }

  /** The body of the batch loop: the check of one employee, its exception caught. */
  method CheckOneOfBatch(fetch: Fetch, employeeId: int, start: Timestamp, end: Timestamp) returns (entry: Verdict)
    ensures entry == BatchEntry(fetch, employeeId, start, end)
  {
    var compliance := CheckEmployeeCompliance(fetch, employeeId, start, end);
    match compliance {
      case Success(v) =>
        entry := v;
      case Failure(e) =>
        entry := Verdict(employeeId, (start, end), false, ERROR_PREFIX + e, None);
    }
  }
}
