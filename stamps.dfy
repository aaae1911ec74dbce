/**
 * The value of a punch's `FECHA_FICHADA` field and its coercion to a timestamp:
 * a native `datetime` is used as it is, a string is read with
 * `datetime.strptime(s, '%Y-%m-%d %H:%M:%S')`, and anything else is unusable.
 *
 * The reader follows the pattern Python's `_strptime` builds for that format:
 * `%Y` is four digits, `%m` `1[0-2]|0[1-9]|[1-9]`, `%d` `3[01]|[12]\d|0[1-9]|[1-9]| [1-9]`,
 * the space is `\s+`, `%H` `2[0-3]|[0-1]\d|\d`, `%M` `[0-5]\d|\d`, `%S` `6[0-1]|[0-5]\d|\d`,
 * the whole string must be consumed, and the resulting `datetime` must exist
 * (year at least 1, day within the month, second at most 59).
 */
module Stamps {
  import opened Wrappers
  import opened Calendar
  import opened Text

  datatype Stamp =
    | DateTimeValue(t: Timestamp)   // a native datetime
    | StringValue(s: string)        // text, e.g. a value that went through the JSON cache
    | OtherValue                    // None, a number, or any other non-datetime value

  /** The broken-down fields of a date and time of day. */
  datatype Fields = Fields(year: int, month: int, day: int, hour: int, minute: int, second: int)

  predicate ValidFields(f: Fields) {
    && ValidDate(f.year, f.month, f.day)
    && 0 <= f.hour <= 23 && 0 <= f.minute <= 59 && 0 <= f.second <= 59
  }

  function TimestampOf(f: Fields): Timestamp
    requires ValidFields(f)
  {
    Midnight(Ordinal(f.year, f.month, f.day)) + f.hour * 3600 + f.minute * 60 + f.second
  }

  /** Python's `str.isspace`, which is what `\s` matches in a `str` pattern. */
  predicate IsSpace(c: char) {
    || ('\t' <= c <= '\r') || ('\U{1C}' <= c <= ' ')
    || c == '\U{85}' || c == '\U{A0}' || c == '\U{1680}'
    || ('\U{2000}' <= c <= '\U{200A}') || c == '\U{2028}' || c == '\U{2029}'
    || c == '\U{202F}' || c == '\U{205F}' || c == '\U{3000}'
  }

  /** The number of consecutive ASCII digits of `s` from index `i`. */
  function DigitRun(s: string, i: nat): (n: nat)
    requires i <= |s|
    ensures i + n <= |s| && AllDigits(s[i..i + n])
    ensures i + n < |s| ==> !IsDigit(s[i + n])
    decreases |s| - i
  {
    if i < |s| && IsDigit(s[i]) then
      var n := 1 + DigitRun(s, i + 1);
      assert s[i..i + n] == [s[i]] + s[i + 1..i + n];
      n
    else 0
  }

  /** The number of consecutive whitespace characters of `s` from index `i`. */
  function SpaceRun(s: string, i: nat): (n: nat)
    requires i <= |s|
    ensures i + n <= |s|
    decreases |s| - i
  {
    if i < |s| && IsSpace(s[i]) then 1 + SpaceRun(s, i + 1) else 0
  }

  datatype FieldKind = YearField | MonthField | DayField | HourField | MinuteField | SecondField

  predicate InRange(c: char, lo: char, hi: char) {
    lo <= c <= hi
  }

  /** Whether a string of digits matches the pattern of the field, as a whole. */
  predicate Accepts(kind: FieldKind, t: string) {
    match kind
    case YearField => |t| == 4
    case MonthField =>
      || (|t| == 1 && InRange(t[0], '1', '9'))
      || (|t| == 2 && ((t[0] == '1' && InRange(t[1], '0', '2')) || (t[0] == '0' && InRange(t[1], '1', '9'))))
    case DayField =>
      || (|t| == 1 && InRange(t[0], '1', '9'))
      || (|t| == 2 && ((t[0] == '3' && InRange(t[1], '0', '1')) || InRange(t[0], '1', '2')
                        || (t[0] == '0' && InRange(t[1], '1', '9'))))
    case HourField =>
      || |t| == 1
      || (|t| == 2 && ((t[0] == '2' && InRange(t[1], '0', '3')) || InRange(t[0], '0', '1')))
    case MinuteField =>
      || |t| == 1
      || (|t| == 2 && InRange(t[0], '0', '5'))
    case SecondField =>
      || |t| == 1
      || (|t| == 2 && ((t[0] == '6' && InRange(t[1], '0', '1')) || InRange(t[0], '0', '5')))
  }

  /** A numeric field read at index `i` and the index just after it. */
  datatype Token = Token(value: int, end: nat)

  /**
   * A numeric field: the digits up to the next separator must match the field's
   * pattern, since every field is followed by a non-digit or by the end.
   */
  function Number(s: string, i: nat, kind: FieldKind): (r: Option<Token>)
    requires i <= |s|
    ensures r.Some? ==> i < r.value.end <= |s|
  {
    var n := DigitRun(s, i);
    var t := s[i..i + n];
    if Accepts(kind, t) then Some(Token(DigitsValue(t), i + n)) else None
  }

  /** `%d`, which also admits a single digit 1-9 after a space. */
  function Day(s: string, i: nat): (r: Option<Token>)
    requires i <= |s|
    ensures r.Some? ==> i < r.value.end <= |s|
  {
    if i < |s| && s[i] == ' ' then
      if i + 1 < |s| && InRange(s[i + 1], '1', '9') then Some(Token(DigitValue(s[i + 1]), i + 2)) else None
    else Number(s, i, DayField)
  }

  function Literal(s: string, i: nat, c: char): (r: Option<nat>)
    requires i <= |s|
    ensures r.Some? ==> r.value == i + 1 <= |s|
  {
    if i < |s| && s[i] == c then Some(i + 1) else None
  }

  function Spaces(s: string, i: nat): (r: Option<nat>)
    requires i <= |s|
    ensures r.Some? ==> i < r.value <= |s|
  {
    var n := SpaceRun(s, i);
    if n >= 1 then Some(i + n) else None
  }

  /** The fields `s` spells in the format `%Y-%m-%d %H:%M:%S`, if it matches it entirely. */
  function ParseFields(s: string): Option<Fields> {
    var y :- Number(s, 0, YearField);
    var i1 :- Literal(s, y.end, '-');
    var mo :- Number(s, i1, MonthField);
    var i2 :- Literal(s, mo.end, '-');
    var d :- Day(s, i2);
    var i3 :- Spaces(s, d.end);
    var h :- Number(s, i3, HourField);
    var i4 :- Literal(s, h.end, ':');
    var mi :- Number(s, i4, MinuteField);
    var i5 :- Literal(s, mi.end, ':');
    var se :- Number(s, i5, SecondField);
    if se.end != |s| then None
    else Some(Fields(y.value, mo.value, d.value, h.value, mi.value, se.value))
  }

  /** `datetime.strptime(s, '%Y-%m-%d %H:%M:%S')`: `None` where it raises `ValueError`. */
  function ParseStamp(s: string): Option<Timestamp> {
    match ParseFields(s)
    case None => None
    case Some(f) => if ValidFields(f) then Some(TimestampOf(f)) else None
  }

  /** How `_group_by_day` coerces a punch's value to a datetime; `None` means the punch is skipped. */
  function StampTime(st: Stamp): Option<Timestamp> {
    match st
    case DateTimeValue(t) => Some(t)
    case StringValue(s) => ParseStamp(s)
    case OtherValue => None
  }

  /** `str(dt)` of a datetime without microseconds: the form the JSON cache stores. */
  function FormatFields(f: Fields): string
    requires ValidFields(f)
  {
    Padded(f.year, 4) + "-" + Padded(f.month, 2) + "-" + Padded(f.day, 2) + " "
      + Padded(f.hour, 2) + ":" + Padded(f.minute, 2) + ":" + Padded(f.second, 2)
  }

  lemma {:induction false} DigitRunExact(s: string, i: nat, n: nat)
    requires i + n <= |s| && AllDigits(s[i..i + n])
    requires i + n == |s| || !IsDigit(s[i + n])
    ensures DigitRun(s, i) == n
    decreases n
  {
    if n > 0 {
      assert IsDigit(s[i..i + n][0]);
      assert s[i + 1..i + n] == s[i..i + n][1..];
      DigitRunExact(s, i + 1, n - 1);
    }
  }

  lemma PaddedTwo(n: nat)
    requires n < 100
    ensures Padded(n, 2) == [DigitChar(n / 10), DigitChar(n % 10)]
  {
    assert Padded(n / 10, 1) == Padded(n / 100, 0) + [DigitChar((n / 10) % 10)];
  }

  /** A field written zero-padded at index `i`, followed by a non-digit or the end, is read back. */
  lemma NumberReadsPadded(s: string, i: nat, kind: FieldKind, v: nat, width: nat)
    requires v < Pow10(width) && i + width <= |s|
    requires s[i..i + width] == Padded(v, width)
    requires i + width == |s| || !IsDigit(s[i + width])
    requires Accepts(kind, Padded(v, width))
    ensures Number(s, i, kind) == Some(Token(v, i + width))
  {
    DigitRunExact(s, i, width);
  }

  lemma FormatLayout(f: Fields)
    requires ValidFields(f)
    ensures var s := FormatFields(f);
      && |s| == 19
      && s[0..4] == Padded(f.year, 4) && s[4] == '-'
      && s[5..7] == Padded(f.month, 2) && s[7] == '-'
      && s[8..10] == Padded(f.day, 2) && s[10] == ' '
      && s[11..13] == Padded(f.hour, 2) && s[13] == ':'
      && s[14..16] == Padded(f.minute, 2) && s[16] == ':'
      && s[17..19] == Padded(f.second, 2)
  {
    var s := FormatFields(f);
    var a1 := Padded(f.year, 4) + "-";
    var a2 := a1 + Padded(f.month, 2) + "-";
    var a3 := a2 + Padded(f.day, 2) + " ";
    var a4 := a3 + Padded(f.hour, 2) + ":";
    var a5 := a4 + Padded(f.minute, 2) + ":";
    assert s == a5 + Padded(f.second, 2);
    PieceAt(a5, Padded(f.second, 2), "");
    PieceAt(a4, Padded(f.minute, 2), ":");
    PieceAt(a3, Padded(f.hour, 2), ":");
    PieceAt(a2, Padded(f.day, 2), " ");
    PieceAt(a1, Padded(f.month, 2), "-");
    PieceAt([], Padded(f.year, 4), "-");
  }

  /** The pieces of a concatenation sit at their offsets. */
  lemma PieceAt<T>(before: seq<T>, piece: seq<T>, after: seq<T>)
    ensures var s := before + piece + after;
      && s[..|before|] == before
      && s[|before|..|before| + |piece|] == piece
      && s[|before| + |piece|..] == after
  {
  }

  lemma AcceptsPaddedMonth(v: nat)
    requires 1 <= v <= 12
    ensures Accepts(MonthField, Padded(v, 2))
  {
    PaddedTwo(v);
    if v < 10 { assert DigitChar(v / 10) == '0'; } else { assert DigitChar(v / 10) == '1'; }
  }

  lemma AcceptsPaddedDay(v: nat)
    requires 1 <= v <= 31
    ensures Accepts(DayField, Padded(v, 2))
  {
    PaddedTwo(v);
    if v < 10 { assert DigitChar(v / 10) == '0'; }
    else if v < 30 { assert '1' <= DigitChar(v / 10) <= '2'; }
    else { assert DigitChar(v / 10) == '3'; }
  }

  lemma AcceptsPaddedHour(v: nat)
    requires v <= 23
    ensures Accepts(HourField, Padded(v, 2))
  {
    PaddedTwo(v);
    if v < 20 { assert '0' <= DigitChar(v / 10) <= '1'; } else { assert DigitChar(v / 10) == '2'; }
  }

  lemma AcceptsPaddedSixty(kind: FieldKind, v: nat)
    requires kind == MinuteField || kind == SecondField
    requires v <= 59
    ensures Accepts(kind, Padded(v, 2))
  {
    PaddedTwo(v);
    assert '0' <= DigitChar(v / 10) <= '5';
  }

  lemma AcceptsPadded(f: Fields)
    requires ValidFields(f)
    ensures Accepts(YearField, Padded(f.year, 4))
    ensures Accepts(MonthField, Padded(f.month, 2))
    ensures Accepts(DayField, Padded(f.day, 2))
    ensures Accepts(HourField, Padded(f.hour, 2))
    ensures Accepts(MinuteField, Padded(f.minute, 2))
    ensures Accepts(SecondField, Padded(f.second, 2))
  {
    AcceptsPaddedMonth(f.month);
    AcceptsPaddedDay(f.day);
    AcceptsPaddedHour(f.hour);
    AcceptsPaddedSixty(MinuteField, f.minute);
    AcceptsPaddedSixty(SecondField, f.second);
  }

  /**
   * Reading back what `str(datetime)` writes: every valid date and time, written as
   * `YYYY-MM-DD HH:MM:SS`, is parsed to its own fields and timestamp.
   */
  lemma {:induction false} ParseFormatRoundTrip(f: Fields)
    requires ValidFields(f)
    ensures ParseFields(FormatFields(f)) == Some(f)
    ensures ParseStamp(FormatFields(f)) == Some(TimestampOf(f))
  {
    var s := FormatFields(f);
    FormatLayout(f);
    AcceptsPadded(f);
    assert Pow10(2) == 100;
    assert Pow10(4) == 10000;
    NumberReadsPadded(s, 0, YearField, f.year, 4);
    NumberReadsPadded(s, 5, MonthField, f.month, 2);
    NumberReadsPadded(s, 8, DayField, f.day, 2);
    assert Day(s, 8) == Some(Token(f.day, 10));
    assert SpaceRun(s, 11) == 0;
    assert Spaces(s, 10) == Some(11);
    NumberReadsPadded(s, 11, HourField, f.hour, 2);
    NumberReadsPadded(s, 14, MinuteField, f.minute, 2);
    NumberReadsPadded(s, 17, SecondField, f.second, 2);
  }
}
