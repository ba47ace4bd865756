/**
 * Naive date-times with minute resolution, as GoogleCalendarHelper uses
 * Python's datetime (google_calendar_helper.py): parsing with
 * strptime("%Y-%m-%d %H:%M"), adding timedelta(minutes=...), and isoformat().
 * No time zone is attached to any value here, as none is in the code.
 *
 * Years are unbounded integers in the proleptic Gregorian calendar; Python's
 * own range (years 1 to 9999) is the separate predicate InPythonRange.
 */
module CivilTime {
  import opened Wrappers
  import opened Text

  datatype DateTime = DateTime(year: int, month: int, day: int, hour: int, minute: int)

  const MinYear: int := 1
  const MaxYear: int := 9999
  const MinutesPerDay: int := 24 * 60

  predicate IsLeapYear(y: int)
  {
    y % 4 == 0 && (y % 100 != 0 || y % 400 == 0)
  }

  function DaysInYear(y: int): int
  {
    if IsLeapYear(y) then 366 else 365
  }

  function DaysInMonth(y: int, m: int): (n: int)
    requires 1 <= m <= 12
    ensures 28 <= n <= 31
    ensures n == 29 <==> m == 2 && IsLeapYear(y)
  {
    if m == 2 then (if IsLeapYear(y) then 29 else 28)
    else if m == 4 || m == 6 || m == 9 || m == 11 then 30
    else 31
  }

  /** A real calendar date and a 24-hour time of day. */
  predicate Valid(t: DateTime)
  {
    && 1 <= t.month <= 12
    && 1 <= t.day <= DaysInMonth(t.year, t.month)
    && 0 <= t.hour < 24
    && 0 <= t.minute < 60
  }

  /** The years Python's datetime can represent. */
  predicate InPythonRange(t: DateTime)
  {
    MinYear <= t.year <= MaxYear
  }

  // ---------------------------------------------------------------------------
  // Reference timeline: day numbers as date.toordinal() counts them.
  // ---------------------------------------------------------------------------

  /** The number of days in the years before y, counted from 0001-01-01 (negative before it). */
  function DaysBeforeYear(y: int): int
  {
    var p := y - 1;
    365 * p + p / 4 - p / 100 + p / 400
  }

  /** The number of days in year y before the first day of month m. */
  function DaysBeforeMonth(y: int, m: int): int
    requires 1 <= m <= 12
  {
    if m == 1 then 0 else DaysBeforeMonth(y, m - 1) + DaysInMonth(y, m - 1)
  }

  /** The day number of a date: 1 for 0001-01-01, as date.toordinal() gives it. */
  function Ordinal(t: DateTime): int
    requires 1 <= t.month <= 12
  {
    DaysBeforeYear(t.year) + DaysBeforeMonth(t.year, t.month) + t.day
  }

  /** Minutes elapsed since 0001-01-01 00:00 (negative before it). */
  function Stamp(t: DateTime): int
    requires 1 <= t.month <= 12
  {
    (Ordinal(t) - 1) * MinutesPerDay + t.hour * 60 + t.minute
  }

  lemma DivStep4(y: int)
    ensures y / 4 - (y - 1) / 4 == if y % 4 == 0 then 1 else 0
  {
  }

  lemma DivStep100(y: int)
    ensures y / 100 - (y - 1) / 100 == if y % 100 == 0 then 1 else 0
  {
  }

  lemma DivStep400(y: int)
    ensures y / 400 - (y - 1) / 400 == if y % 400 == 0 then 1 else 0
  {
  }

  /** Consecutive years are DaysInYear apart. */
  lemma YearStep(y: int)
    ensures DaysBeforeYear(y + 1) == DaysBeforeYear(y) + DaysInYear(y)
  {
    DivStep4(y);
    DivStep100(y);
    DivStep400(y);
  }

  lemma {:induction false} DaysBeforeYearMonotone(y1: int, y2: int)
    requires y1 <= y2
    ensures DaysBeforeYear(y1) + 365 * (y2 - y1) <= DaysBeforeYear(y2)
    decreases y2 - y1
  {
    if y1 < y2 {
      DaysBeforeYearMonotone(y1, y2 - 1);
      YearStep(y2 - 1);
    }
  }

  /** DaysBeforeMonth written out month by month. */
  lemma {:induction false} DaysBeforeMonthValue(y: int, m: int)
    requires 1 <= m <= 12
    ensures DaysBeforeMonth(y, m) ==
      (if m == 1 then 0 else if m == 2 then 31 else if m == 3 then 59
       else if m == 4 then 90 else if m == 5 then 120 else if m == 6 then 151
       else if m == 7 then 181 else if m == 8 then 212 else if m == 9 then 243
       else if m == 10 then 273 else if m == 11 then 304 else 334)
      + (if m > 2 && IsLeapYear(y) then 1 else 0)
  {
    if m > 1 {
      DaysBeforeMonthValue(y, m - 1);
    }
  }

  /** A valid date lies within its year. */
  lemma DayOfYearBounds(t: DateTime)
    requires Valid(t)
    ensures 1 <= DaysBeforeMonth(t.year, t.month) + t.day <= DaysInYear(t.year)
  {
    DaysBeforeMonthValue(t.year, t.month);
  }

  // ---------------------------------------------------------------------------
  // Calendar arithmetic
  // ---------------------------------------------------------------------------

  /** The same time of day on the following date. */
  function NextDay(t: DateTime): (r: DateTime)
    requires Valid(t)
    ensures Valid(r) && r.hour == t.hour && r.minute == t.minute
    ensures Ordinal(r) == Ordinal(t) + 1
  {
    if t.day < DaysInMonth(t.year, t.month) then t.(day := t.day + 1)
    else if t.month < 12 then
      assert DaysBeforeMonth(t.year, t.month + 1) == DaysBeforeMonth(t.year, t.month) + t.day;
      t.(month := t.month + 1, day := 1)
    else
      YearStep(t.year);
      DaysBeforeMonthValue(t.year, 12);
      DateTime(t.year + 1, 1, 1, t.hour, t.minute)
  }

  /** The same time of day on the preceding date. */
  function PrevDay(t: DateTime): (r: DateTime)
    requires Valid(t)
    ensures Valid(r) && r.hour == t.hour && r.minute == t.minute
    ensures Ordinal(r) == Ordinal(t) - 1
  {
    if t.day > 1 then t.(day := t.day - 1)
    else if t.month > 1 then t.(month := t.month - 1, day := DaysInMonth(t.year, t.month - 1))
    else
      YearStep(t.year - 1);
      DaysBeforeMonthValue(t.year - 1, 12);
      DateTime(t.year - 1, 12, 31, t.hour, t.minute)
  }

  /** The same time of day k dates later (earlier when k is negative). */
  function AddDays(t: DateTime, k: int): (r: DateTime)
    requires Valid(t)
    ensures Valid(r) && r.hour == t.hour && r.minute == t.minute
    ensures Ordinal(r) == Ordinal(t) + k
    decreases if k < 0 then -k else k
  {
    if k == 0 then t
    else if k > 0 then AddDays(NextDay(t), k - 1)
    else AddDays(PrevDay(t), k + 1)
  }

  /**
   * t + timedelta(minutes=m): the carry into the day, month and year, before
   * Python's check that the year is still in range.
   */
  function AddMinutes(t: DateTime, m: int): (r: DateTime)
    requires Valid(t)
    ensures Valid(r)
    ensures Stamp(r) == Stamp(t) + m
  {
    var total := t.hour * 60 + t.minute + m;
    var days, rest := total / MinutesPerDay, total % MinutesPerDay;
    var shifted := AddDays(t, days);
    var r := shifted.(hour := rest / 60, minute := rest % 60);
    assert total == days * MinutesPerDay + rest;
    assert rest == r.hour * 60 + r.minute;
    assert Ordinal(r) == Ordinal(t) + days;
    r
  }

  /** Minutes that stay within the day keep the date. */
  lemma SameDayKeepsDate(t: DateTime, m: int)
    requires Valid(t) && 0 <= m && t.hour * 60 + t.minute + m < MinutesPerDay
    ensures AddMinutes(t, m).year == t.year && AddMinutes(t, m).month == t.month && AddMinutes(t, m).day == t.day
  {
    var total := t.hour * 60 + t.minute + m;
    assert total / MinutesPerDay == 0;
    assert AddDays(t, 0) == t;
  }

  /** Chronological order, compared field by field. */
  predicate Before(a: DateTime, b: DateTime)
  {
    || a.year < b.year
    || (a.year == b.year && a.month < b.month)
    || (a.year == b.year && a.month == b.month && a.day < b.day)
    || (a.year == b.year && a.month == b.month && a.day == b.day && a.hour < b.hour)
    || (a.year == b.year && a.month == b.month && a.day == b.day && a.hour == b.hour && a.minute < b.minute)
  }

  lemma OrdinalOrder(a: DateTime, b: DateTime)
    requires Valid(a) && Valid(b)
    requires a.year < b.year || (a.year == b.year && (a.month < b.month || (a.month == b.month && a.day < b.day)))
    ensures Ordinal(a) < Ordinal(b)
  {
    DaysBeforeMonthValue(a.year, a.month);
    DaysBeforeMonthValue(b.year, b.month);
    if a.year < b.year {
      DayOfYearBounds(a);
      YearStep(a.year);
      DaysBeforeYearMonotone(a.year + 1, b.year);
    }
  }

  /** A whole day outweighs any difference in the time of day. */
  lemma EarlierDayEarlierStamp(a: DateTime, b: DateTime)
    requires Valid(a) && Valid(b)
    requires Ordinal(a) < Ordinal(b)
    ensures Stamp(a) < Stamp(b)
  {
  }

  /** Field order and the reference timeline agree. */
  lemma {:induction false} BeforeIffEarlierStamp(a: DateTime, b: DateTime)
    requires Valid(a) && Valid(b)
    ensures Before(a, b) <==> Stamp(a) < Stamp(b)
  {
    if a.year == b.year && a.month == b.month && a.day == b.day {
      assert Ordinal(a) == Ordinal(b);
    } else if a.year < b.year || (a.year == b.year && (a.month < b.month || (a.month == b.month && a.day < b.day))) {
      OrdinalOrder(a, b);
      EarlierDayEarlierStamp(a, b);
    } else {
      OrdinalOrder(b, a);
      EarlierDayEarlierStamp(b, a);
    }
  }

  /** Adding a positive number of minutes moves strictly forward in time. */
  lemma AddMinutesMovesForward(t: DateTime, m: int)
    requires Valid(t) && m > 0
    ensures Before(t, AddMinutes(t, m))
  {
    BeforeIffEarlierStamp(t, AddMinutes(t, m));
  }

  // ---------------------------------------------------------------------------
  // strptime(s, "%Y-%m-%d %H:%M")
  // ---------------------------------------------------------------------------

  /** A number read by one directive, and the text after it. */
  datatype Field = Field(value: int, rest: string)

  /** %Y: exactly four digits. */
  function YearField(s: string): (r: Option<Field>)
    ensures r.Some? <==> |s| >= 4 && AllDigits(s[..4])
    ensures r.Some? ==> r.value.rest == s[4..] && r.value.value == DecimalValue(s[..4]) <= 9999
  {
    if |s| >= 4 && AllDigits(s[..4]) then
      FourDigitsBound(s[..4]);
      Some(Field(DecimalValue(s[..4]), s[4..]))
    else None
  }

  lemma FourDigitsBound(s: string)
    requires |s| == 4 && AllDigits(s)
    ensures DecimalValue(s) <= 9999
  {
    assert s[..3][..2][..1][..0] == [];
    assert DecimalValue(s[..3][..2][..1]) <= 9;
    assert DecimalValue(s[..3][..2]) <= 99;
    assert DecimalValue(s[..3]) <= 999;
  }

  /** A numeral of one or two ASCII digits, and the number v it denotes. */
  predicate Numeral(c: string, v: int)
  {
    || (|c| == 1 && IsDigit(c[0]) && v == DigitValue(c[0]))
    || (|c| == 2 && IsDigit(c[0]) && IsDigit(c[1]) && v == 10 * DigitValue(c[0]) + DigitValue(c[1]))
  }

  /** The texts %m matches on its own, with the month each denotes. */
  predicate MonthText(c: string, v: int) { Numeral(c, v) && 1 <= v <= 12 }

  /** The texts %d matches on its own: a numeral, or a space and one digit. */
  predicate DayText(c: string, v: int)
  {
    && 1 <= v <= 31
    && (Numeral(c, v) || (|c| == 2 && c[0] == ' ' && IsDigit(c[1]) && v == DigitValue(c[1])))
  }

  /** The texts %H matches on its own, with the hour each denotes. */
  predicate HourText(c: string, v: int) { Numeral(c, v) && 0 <= v <= 23 }

  /** The texts %M matches on its own, with the minute each denotes. */
  predicate MinuteText(c: string, v: int) { Numeral(c, v) && 0 <= v <= 59 }

  /** The part of s a directive consumed, given the text f.rest it left. */
  function ReadText(s: string, f: Field): string
    requires |f.rest| <= |s|
  {
    s[..|s| - |f.rest|]
  }

  /** %m: 1[0-2] | 0[1-9] | [1-9], alternatives in that order. */
  function MonthField(s: string): (r: Option<Field>)
    ensures r.Some? ==> |r.value.rest| < |s| && r.value.rest == s[|s| - |r.value.rest|..]
    ensures r.Some? ==> MonthText(ReadText(s, r.value), r.value.value)
  {
    if |s| >= 2 && s[0] == '1' && '0' <= s[1] <= '2' then
      Some(Field(10 + DigitValue(s[1]), s[2..]))
    else if |s| >= 2 && s[0] == '0' && '1' <= s[1] <= '9' then
      Some(Field(DigitValue(s[1]), s[2..]))
    else if |s| >= 1 && '1' <= s[0] <= '9' then
      Some(Field(DigitValue(s[0]), s[1..]))
    else None
  }

  /** %d: 3[01] | [12]\d | 0[1-9] | [1-9] | ' '[1-9], alternatives in that order. */
  function DayField(s: string): (r: Option<Field>)
    ensures r.Some? ==> |r.value.rest| < |s| && r.value.rest == s[|s| - |r.value.rest|..]
    ensures r.Some? ==> DayText(ReadText(s, r.value), r.value.value)
  {
    if |s| >= 2 && s[0] == '3' && '0' <= s[1] <= '1' then
      Some(Field(30 + DigitValue(s[1]), s[2..]))
    else if |s| >= 2 && '1' <= s[0] <= '2' && IsDigit(s[1]) then
      Some(Field(10 * DigitValue(s[0]) + DigitValue(s[1]), s[2..]))
    else if |s| >= 2 && s[0] == '0' && '1' <= s[1] <= '9' then
      Some(Field(DigitValue(s[1]), s[2..]))
    else if |s| >= 1 && '1' <= s[0] <= '9' then
      Some(Field(DigitValue(s[0]), s[1..]))
    else if |s| >= 2 && s[0] == ' ' && '1' <= s[1] <= '9' then
      Some(Field(DigitValue(s[1]), s[2..]))
    else None
  }

  /** %H: 2[0-3] | [0-1]\d | \d, alternatives in that order. */
  function HourField(s: string): (r: Option<Field>)
    ensures r.Some? ==> |r.value.rest| < |s| && r.value.rest == s[|s| - |r.value.rest|..]
    ensures r.Some? ==> HourText(ReadText(s, r.value), r.value.value)
  {
    if |s| >= 2 && s[0] == '2' && '0' <= s[1] <= '3' then
      Some(Field(20 + DigitValue(s[1]), s[2..]))
    else if |s| >= 2 && '0' <= s[0] <= '1' && IsDigit(s[1]) then
      Some(Field(10 * DigitValue(s[0]) + DigitValue(s[1]), s[2..]))
    else if |s| >= 1 && IsDigit(s[0]) then
      Some(Field(DigitValue(s[0]), s[1..]))
    else None
  }

  /** %M: [0-5]\d | \d, alternatives in that order. */
  function MinuteField(s: string): (r: Option<Field>)
    ensures r.Some? ==> |r.value.rest| < |s| && r.value.rest == s[|s| - |r.value.rest|..]
    ensures r.Some? ==> MinuteText(ReadText(s, r.value), r.value.value)
  {
    if |s| >= 2 && '0' <= s[0] <= '5' && IsDigit(s[1]) then
      Some(Field(10 * DigitValue(s[0]) + DigitValue(s[1]), s[2..]))
    else if |s| >= 1 && IsDigit(s[0]) then
      Some(Field(DigitValue(s[0]), s[1..]))
    else None
  }

  /** A literal character of the format. */
  function Literal(s: string, c: char): (r: Option<string>)
    ensures r.Some? <==> s != [] && s[0] == c
    ensures r.Some? ==> s == [c] + r.value
  {
    if s != [] && s[0] == c then Some(s[1..]) else None
  }

  predicate AllSpace(s: string) { forall i :: 0 <= i < |s| ==> IsSpace(s[i]) }

  function SkipSpaces(s: string): (r: string)
    ensures |r| <= |s| && r == s[|s| - |r|..] && AllSpace(s[..|s| - |r|])
    ensures r == [] || !IsSpace(r[0])
  {
    if s != [] && IsSpace(s[0]) then
      var r := SkipSpaces(s[1..]);
      assert forall i :: 1 <= i < |s| - |r| ==> s[i] == s[1..][..|s| - 1 - |r|][i - 1];
      r
    else s
  }

  /** The format's space, which strptime matches as \s+ (one or more whitespace characters). */
  function Spaces(s: string): (r: Option<string>)
    ensures r.Some? <==> s != [] && IsSpace(s[0])
    ensures r.Some? ==> |r.value| < |s| && r.value == s[|s| - |r.value|..] && AllSpace(s[..|s| - |r.value|])
    ensures r.Some? ==> r.value == [] || !IsSpace(r.value[0])
  {
    if s != [] && IsSpace(s[0]) then Some(SkipSpaces(s)) else None
  }

  /**
   * datetime.strptime(s, "%Y-%m-%d %H:%M"), None where it raises ValueError:
   * the text does not match the pattern, text is left over after the minutes,
   * the year is 0000, or the day does not exist in that month.
   *
   * Every field is followed by a separator that no alternative of the next
   * directive can start with, so committing to the first alternative that
   * matches finds the same match as the regular expression's backtracking.
   */
  function Strptime(s: string): (r: Option<DateTime>)
    ensures r.Some? ==> Valid(r.value) && InPythonRange(r.value)
  {
    var date :- ReadDate(s);
    var time :- ReadTime(date.rest);
    if time.rest != [] || date.year < MinYear || date.day > DaysInMonth(date.year, date.month) then None
    else Some(DateTime(date.year, date.month, date.day, time.hour, time.minute))
  }

  /** The numbers "%Y-%m-%d" read, and the text after them. */
  datatype DateRead = DateRead(year: int, month: int, day: int, rest: string)

  /** "%Y-%m-%d": the date part of the format. */
  function ReadDate(s: string): (r: Option<DateRead>)
    ensures r.Some? ==> 1 <= r.value.month <= 12 && 1 <= r.value.day <= 31 && r.value.year <= 9999
  {
    var y :- YearField(s);
    var r1 :- Literal(y.rest, '-');
    var mo :- MonthField(r1);
    var r2 :- Literal(mo.rest, '-');
    var d :- DayField(r2);
    Some(DateRead(y.value, mo.value, d.value, d.rest))
  }

  /** The numbers " %H:%M" read, and the text after them. */
  datatype TimeRead = TimeRead(hour: int, minute: int, rest: string)

  /** " %H:%M": the format's space and the time part. */
  function ReadTime(s: string): (r: Option<TimeRead>)
    ensures r.Some? ==> 0 <= r.value.hour <= 23 && 0 <= r.value.minute <= 59
  {
    var r3 :- Spaces(s);
    var h :- HourField(r3);
    var r4 :- Literal(h.rest, ':');
    var mi :- MinuteField(r4);
    Some(TimeRead(h.value, mi.value, mi.rest))
  }

  /**
   * s is exactly a text that "%Y-%m-%d %H:%M" matches as a whole, spelling t:
   * four year digits y, '-', the month mo, '-', the day d, one or more
   * whitespace characters sp, the hour h, ':', the minute mi, and nothing after.
   */
  predicate Spells(s: string, t: DateTime, y: string, mo: string, d: string, sp: string, h: string, mi: string)
  {
    && s == y + ("-" + (mo + ("-" + (d + (sp + (h + (":" + mi)))))))
    && |y| == 4 && AllDigits(y) && DecimalValue(y) == t.year
    && MonthText(mo, t.month)
    && DayText(d, t.day)
    && sp != [] && AllSpace(sp)
    && HourText(h, t.hour)
    && MinuteText(mi, t.minute)
  }

  /** %m reads exactly its own text when no digit follows it. */
  lemma MonthFieldReads(c: string, v: int, rest: string)
    requires MonthText(c, v) && (rest == [] || !IsDigit(rest[0]))
    ensures MonthField(c + rest) == Some(Field(v, rest))
  {
  }

  /** %d reads exactly its own text when no digit follows it. */
  lemma DayFieldReads(c: string, v: int, rest: string)
    requires DayText(c, v) && (rest == [] || !IsDigit(rest[0]))
    ensures DayField(c + rest) == Some(Field(v, rest))
  {
  }

  /** %H reads exactly its own text when no digit follows it. */
  lemma HourFieldReads(c: string, v: int, rest: string)
    requires HourText(c, v) && (rest == [] || !IsDigit(rest[0]))
    ensures HourField(c + rest) == Some(Field(v, rest))
  {
  }

  /** %M reads exactly its own text when no digit follows it. */
  lemma MinuteFieldReads(c: string, v: int, rest: string)
    requires MinuteText(c, v) && (rest == [] || !IsDigit(rest[0]))
    ensures MinuteField(c + rest) == Some(Field(v, rest))
  {
  }

  lemma {:induction false} SkipSpacesReads(sp: string, rest: string)
    requires AllSpace(sp) && (rest == [] || !IsSpace(rest[0]))
    ensures SkipSpaces(sp + rest) == rest
  {
    if sp != [] {
      assert (sp + rest)[1..] == sp[1..] + rest;
      SkipSpacesReads(sp[1..], rest);
    }
  }

  /** The format's space reads every whitespace character up to the next other one. */
  lemma SpacesReads(sp: string, rest: string)
    requires sp != [] && AllSpace(sp) && (rest == [] || !IsSpace(rest[0]))
    ensures Spaces(sp + rest) == Some(rest)
  {
    SkipSpacesReads(sp, rest);
  }

  lemma DateReads(y: string, mo: string, d: string, rest: string, year: int, month: int, day: int)
    requires |y| == 4 && AllDigits(y) && DecimalValue(y) == year
    requires MonthText(mo, month) && DayText(d, day) && (rest == [] || !IsDigit(rest[0]))
    ensures ReadDate(y + ("-" + (mo + ("-" + (d + rest))))) == Some(DateRead(year, month, day, rest))
  {
    var r2 := "-" + (d + rest);
    var r1 := "-" + (mo + r2);
    var s := y + r1;
    assert s[..4] == y && s[4..] == r1;
    MonthFieldReads(mo, month, r2);
    DayFieldReads(d, day, rest);
  }

  lemma TimeReads(sp: string, h: string, mi: string, rest: string, hour: int, minute: int)
    requires sp != [] && AllSpace(sp) && HourText(h, hour) && MinuteText(mi, minute)
    requires rest == [] || !IsDigit(rest[0])
    ensures ReadTime(sp + (h + (":" + (mi + rest)))) == Some(TimeRead(hour, minute, rest))
  {
    var r4 := ":" + (mi + rest);
    SpacesReads(sp, h + r4);
    HourFieldReads(h, hour, r4);
    MinuteFieldReads(mi, minute, rest);
  }

  /** Every text the format spells for a real date-time in Python's range parses to it. */
  lemma SpelledParses(s: string, t: DateTime, y: string, mo: string, d: string, sp: string, h: string, mi: string)
    requires Valid(t) && InPythonRange(t) && Spells(s, t, y, mo, d, sp, h, mi)
    ensures Strptime(s) == Some(t)
  {
    var rest := sp + (h + (":" + mi));
    DateReads(y, mo, d, rest, t.year, t.month, t.day);
    assert mi + [] == mi;
    TimeReads(sp, h, mi, [], t.hour, t.minute);
  }

  lemma DateSpelled(s: string) returns (y: string, mo: string, d: string)
    requires ReadDate(s).Some?
    ensures s == y + ("-" + (mo + ("-" + (d + ReadDate(s).value.rest))))
    ensures |y| == 4 && AllDigits(y) && DecimalValue(y) == ReadDate(s).value.year
    ensures MonthText(mo, ReadDate(s).value.month) && DayText(d, ReadDate(s).value.day)
  {
    var yf := YearField(s).value;
    var r1 := Literal(yf.rest, '-').value;
    var mof := MonthField(r1).value;
    var r2 := Literal(mof.rest, '-').value;
    var df := DayField(r2).value;
    y, mo, d := s[..4], ReadText(r1, mof), ReadText(r2, df);
    SplitAtSuffix(r2, df.rest);
    SplitAtSuffix(r1, mof.rest);
    SplitAtSuffix(s, yf.rest);
  }

  lemma TimeSpelled(s: string) returns (sp: string, h: string, mi: string)
    requires ReadTime(s).Some?
    ensures s == sp + (h + (":" + (mi + ReadTime(s).value.rest)))
    ensures sp != [] && AllSpace(sp)
    ensures HourText(h, ReadTime(s).value.hour) && MinuteText(mi, ReadTime(s).value.minute)
  {
    var r3 := Spaces(s).value;
    var hf := HourField(r3).value;
    var r4 := Literal(hf.rest, ':').value;
    var mif := MinuteField(r4).value;
    sp, h, mi := s[..|s| - |r3|], ReadText(r3, hf), ReadText(r4, mif);
    SplitAtSuffix(r4, mif.rest);
    SplitAtSuffix(r3, hf.rest);
    SplitAtSuffix(s, r3);
  }

  /** Every text that parses is one the format spells for the parsed date-time. */
  lemma ParsedIsSpelled(s: string)
    requires Strptime(s).Some?
    ensures exists y, mo, d, sp, h, mi :: Spells(s, Strptime(s).value, y, mo, d, sp, h, mi)
  {
    var date := ReadDate(s).value;
    var time := ReadTime(date.rest).value;
    var y, mo, d := DateSpelled(s);
    var sp, h, mi := TimeSpelled(date.rest);
    assert time.rest == [] && mi + [] == mi;
    assert Spells(s, Strptime(s).value, y, mo, d, sp, h, mi);
  }

  lemma SplitAtSuffix(s: string, rest: string)
    requires |rest| <= |s| && rest == s[|s| - |rest|..]
    ensures s == s[..|s| - |rest|] + rest
  {
  }

  /**
   * strptime(s, "%Y-%m-%d %H:%M") gives t exactly when t is a real date-time
   * in Python's range and s is a text the format spells for t: a "T" or any
   * other separator, a missing field, a three-digit month or text after the
   * minutes all make it fail.
   */
  lemma StrptimeIffSpelled(s: string, t: DateTime)
    ensures Strptime(s) == Some(t) <==>
      Valid(t) && InPythonRange(t) && exists y, mo, d, sp, h, mi :: Spells(s, t, y, mo, d, sp, h, mi)
  {
    if Strptime(s) == Some(t) {
      ParsedIsSpelled(s);
    }
    if Valid(t) && InPythonRange(t) && exists y, mo, d, sp, h, mi :: Spells(s, t, y, mo, d, sp, h, mi) {
      var y, mo, d, sp, h, mi :| Spells(s, t, y, mo, d, sp, h, mi);
      SpelledParses(s, t, y, mo, d, sp, h, mi);
    }
  }

  /** Every text that parses holds whitespace, so the "T"-separated ISO form never parses. */
  lemma ParsedHoldsSpace(s: string)
    ensures Strptime(s).Some? ==> exists i :: 0 <= i < |s| && IsSpace(s[i])
  {
    if Strptime(s).Some? {
      ParsedIsSpelled(s);
      var y, mo, d, sp, h, mi :| Spells(s, Strptime(s).value, y, mo, d, sp, h, mi);
      var k := |y| + 1 + |mo| + 1 + |d|;
      assert s[k] == sp[0];
    }
  }


  // ---------------------------------------------------------------------------
  // Formatting
  // ---------------------------------------------------------------------------

  /** The date as "YYYY-MM-DD". */
  function DateText(t: DateTime): (r: string)
    requires Valid(t) && InPythonRange(t)
    ensures |r| == 10 && r[4] == '-' && r[7] == '-'
  {
    Four(t.year) + "-" + Two(t.month) + "-" + Two(t.day)
  }

  /** The time as "HH:MM". */
  function TimeText(t: DateTime): (r: string)
    requires Valid(t)
    ensures |r| == 5 && r[2] == ':'
  {
    Two(t.hour) + ":" + Two(t.minute)
  }

  /** datetime.isoformat() of a naive date-time whose seconds are zero: "YYYY-MM-DDTHH:MM:00". */
  function IsoFormat(t: DateTime): (r: string)
    requires Valid(t) && InPythonRange(t)
    ensures |r| == 19
    ensures r[..10] == DateText(t) && r[10] == 'T' && r[11..16] == TimeText(t) && r[16..] == ":00"
  {
    DateText(t) + "T" + TimeText(t) + ":00"
  }

  lemma YearFieldOfFour(n: nat, rest: string)
    requires n < 10000
    ensures YearField(Four(n) + rest) == Some(Field(n, rest))
  {
  }

  lemma MonthFieldOfTwo(n: nat, rest: string)
    requires 1 <= n <= 12
    ensures MonthField(Two(n) + rest) == Some(Field(n, rest))
  {
  }

  lemma DayFieldOfTwo(n: nat, rest: string)
    requires 1 <= n <= 31
    ensures DayField(Two(n) + rest) == Some(Field(n, rest))
  {
  }

  lemma HourFieldOfTwo(n: nat, rest: string)
    requires n <= 23
    ensures HourField(Two(n) + rest) == Some(Field(n, rest))
  {
  }

  lemma MinuteFieldOfTwo(n: nat, rest: string)
    requires n <= 59
    ensures MinuteField(Two(n) + rest) == Some(Field(n, rest))
  {
  }

  lemma SpacesBeforeDigit(s: string)
    requires s != [] && IsDigit(s[0])
    ensures Spaces(" " + s) == Some(s)
  {
  }

  /**
   * A valid date-time written as "YYYY-MM-DD HH:MM" parses back to itself,
   * and any text after the minutes makes the parse fail.
   */
  lemma StrptimeOfFormatted(t: DateTime, tail: string)
    requires Valid(t) && InPythonRange(t)
    ensures Strptime(DateText(t) + " " + TimeText(t) + tail) == if tail == [] then Some(t) else None
  {
    var rest := " " + TimeText(t) + tail;
    assert DateText(t) + " " + TimeText(t) + tail == DateText(t) + rest;
    ReadDateOfText(t, rest);
    ReadTimeOfText(t, tail);
  }

  lemma ReadDateOfText(t: DateTime, rest: string)
    requires Valid(t) && InPythonRange(t)
    ensures ReadDate(DateText(t) + rest) == Some(DateRead(t.year, t.month, t.day, rest))
  {
    var r2 := Two(t.day) + rest;
    var r1 := Two(t.month) + ("-" + r2);
    assert DateText(t) + rest == Four(t.year) + ("-" + r1);
    YearFieldOfFour(t.year, "-" + r1);
    MonthFieldOfTwo(t.month, "-" + r2);
    DayFieldOfTwo(t.day, rest);
  }

  lemma ReadTimeOfText(t: DateTime, tail: string)
    requires Valid(t)
    ensures ReadTime(" " + TimeText(t) + tail) == Some(TimeRead(t.hour, t.minute, tail))
  {
    var mi := Two(t.minute) + tail;
    var r3 := Two(t.hour) + (":" + mi);
    assert " " + TimeText(t) + tail == " " + r3;
    SpacesBeforeDigit(r3);
    HourFieldOfTwo(t.hour, ":" + mi);
    MinuteFieldOfTwo(t.minute, tail);
  }

  /** Formatting a valid date-time and parsing it back gives the same date-time. */
  lemma StrptimeRoundTrip(t: DateTime)
    requires Valid(t) && InPythonRange(t)
    ensures Strptime(DateText(t) + " " + TimeText(t)) == Some(t)
  {
    StrptimeOfFormatted(t, []);
    assert DateText(t) + " " + TimeText(t) + [] == DateText(t) + " " + TimeText(t);
  }

  /** Text left over after the minutes is rejected, as strptime's "unconverted data remains". */
  lemma TrailingTextRejected(t: DateTime, tail: string)
    requires Valid(t) && InPythonRange(t) && tail != []
    ensures Strptime(DateText(t) + " " + TimeText(t) + tail) == None
  {
    StrptimeOfFormatted(t, tail);
  }

  /** The date and time parts of isoformat() read back to the same date-time. */
  lemma IsoFormatReparses(t: DateTime)
    requires Valid(t) && InPythonRange(t)
    ensures Strptime(IsoFormat(t)[..10] + " " + IsoFormat(t)[11..16]) == Some(t)
  {
    StrptimeRoundTrip(t);
  }
}
