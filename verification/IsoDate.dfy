/** Calendar dates as `YYYY-MM-DD` strings: full-date of RFC 3339, section 5.6, month lengths of section 5.7. */
module IsoDate {
  import opened KstTime

  // Which strings are accepted, the day number each one names, and why comparing the strings compares the days.

  datatype Date = Date(year: int, month: int, day: int)

  predicate Leap(year: int) {
    (year % 4 == 0 && year % 100 != 0) || year % 400 == 0
  }

  function DaysInMonth(year: int, month: int): int
    requires 1 <= month <= 12
  {
    [31, if Leap(year) then 29 else 28, 31, 30, 31, 30, 31, 31, 30, 31, 30, 31][month - 1]
  }

  predicate Valid(date: Date) {
    1 <= date.month <= 12 && 1 <= date.day <= DaysInMonth(date.year, date.month)
  }

  /** Days from 1970-01-01 to the first of January, as ECMAScript's DayFromYear counts them. */
  function DayFromYear(year: int): int {
    365 * (year - 1970) + (year - 1969) / 4 - (year - 1901) / 100 + (year - 1601) / 400
  }

  function DaysBeforeMonth(year: int, month: int): int
    requires 1 <= month <= 13
  {
    if month == 1 then 0 else DaysBeforeMonth(year, month - 1) + DaysInMonth(year, month - 1)
  }

  function DayNumber(date: Date): int
    requires Valid(date)
  {
    DayFromYear(date.year) + DaysBeforeMonth(date.year, date.month) + date.day - 1
  }

  // ----- The calendar is ordered -----

  function YearLength(year: int): int {
    if Leap(year) then 366 else 365
  }

  lemma YearStep(year: int)
    ensures DayFromYear(year + 1) == DayFromYear(year) + YearLength(year)
  {
    assert (year - 1968) / 4 - (year - 1969) / 4 == if year % 4 == 0 then 1 else 0;
    assert (year - 1900) / 100 - (year - 1901) / 100 == if year % 100 == 0 then 1 else 0;
    assert (year - 1600) / 400 - (year - 1601) / 400 == if year % 400 == 0 then 1 else 0;
  }

  lemma {:induction false} YearMonotone(a: int, b: int)
    requires a <= b
    ensures DayFromYear(a) <= DayFromYear(b)
    decreases b - a
  {
    if a < b {
      YearStep(a);
      YearMonotone(a + 1, b);
    }
  }

  lemma MonthsFillYear(year: int)
    ensures DaysBeforeMonth(year, 13) == YearLength(year)
  {
    var feb := if Leap(year) then 29 else 28;
    assert DaysBeforeMonth(year, 2) == 31;
    assert DaysBeforeMonth(year, 3) == 31 + feb;
    assert DaysBeforeMonth(year, 5) == 92 + feb - 0;
    assert DaysBeforeMonth(year, 7) == 153 + feb;
    assert DaysBeforeMonth(year, 9) == 215 + feb;
    assert DaysBeforeMonth(year, 11) == 276 + feb;
  }

  lemma {:induction false} MonthMonotone(year: int, a: int, b: int)
    requires 1 <= a <= b <= 13
    ensures DaysBeforeMonth(year, a) <= DaysBeforeMonth(year, b)
    decreases b
  {
    if a < b {
      MonthMonotone(year, a, b - 1);
    }
  }

  ghost predicate DateLess(a: Date, b: Date) {
    a.year < b.year || (a.year == b.year && (a.month < b.month || (a.month == b.month && a.day < b.day)))
  }

  lemma DateWithinYear(a: Date)
    requires Valid(a)
    ensures DayFromYear(a.year) <= DayNumber(a) < DayFromYear(a.year + 1)
  {
    MonthMonotone(a.year, 1, a.month);
    MonthMonotone(a.year, a.month + 1, 13);
    MonthsFillYear(a.year);
    YearStep(a.year);
  }

  /** Day numbers order valid dates exactly as year, month, day do. */
  lemma DayNumberOrder(a: Date, b: Date)
    requires Valid(a) && Valid(b)
    ensures DateLess(a, b) <==> DayNumber(a) < DayNumber(b)
  {
    DateLessIsEarlier(a, b);
    DateLessIsEarlier(b, a);
  }

  lemma DateLessIsEarlier(a: Date, b: Date)
    requires Valid(a) && Valid(b)
    ensures DateLess(a, b) ==> DayNumber(a) < DayNumber(b)
  {
    if a.year < b.year {
      DateWithinYear(a);
      DateWithinYear(b);
      YearMonotone(a.year + 1, b.year);
    } else if a.year == b.year && a.month < b.month {
      MonthMonotone(a.year, a.month + 1, b.month);
    }
  }

  // ----- The calendar without its tables -----

  /** The Gregorian day count as one formula: no month table, no leap-year predicate, no recursion. */
  function CivilDay(year: int, month: int, day: int): int {
    365 * (year - 1970) + (year - 1969) / 4 - (year - 1901) / 100 + (year - 1601) / 400
    + (367 * month - 362) / 12
    - (if month <= 2 then 0 else if year % 4 == 0 && (year % 100 != 0 || year % 400 == 0) then 1 else 2)
    + day - 1
  }

  /** Where a month starts, and so how long it is, by the formula. */
  function CivilMonthLength(year: int, month: int): int {
    (if month == 12 then CivilDay(year + 1, 1, 1) else CivilDay(year, month + 1, 1)) - CivilDay(year, month, 1)
  }

  /** From one month start of the formula to the next. */
  lemma CivilMonthStep(year: int, month: int)
    requires 1 <= month <= 11
    ensures CivilDay(year, month + 1, 1) == CivilDay(year, month, 1) + DaysInMonth(year, month)
  {
    assert month == 1 || month == 2 || month == 3 || month == 4 || month == 5 || month == 6
        || month == 7 || month == 8 || month == 9 || month == 10 || month == 11;
  }

  lemma {:induction false} MonthStartsCivil(year: int, month: int)
    requires 1 <= month <= 12
    ensures DayFromYear(year) + DaysBeforeMonth(year, month) == CivilDay(year, month, 1)
    decreases month
  {
    if month > 1 {
      hide CivilDay, DaysInMonth, DayFromYear;
      MonthStartsCivil(year, month - 1);
      CivilMonthStep(year, month - 1);
    }
  }

  /** Every valid date has the day number the formula gives. */
  lemma DayNumberIsCivil(date: Date)
    requires Valid(date)
    ensures DayNumber(date) == CivilDay(date.year, date.month, date.day)
  {
    MonthStartsCivil(date.year, date.month);
  }

  /** The month table is the difference of two consecutive month starts of the formula. */
  lemma MonthLengthIsCivil(year: int, month: int)
    requires 1 <= month <= 12
    ensures DaysInMonth(year, month) == CivilMonthLength(year, month)
  {
    hide CivilDay, DayFromYear;
    if month == 12 {
      MonthStartsCivil(year, 12);
      MonthStartsCivil(year + 1, 1);
      MonthsFillYear(year);
      YearStep(year);
    } else {
      CivilMonthStep(year, month);
    }
  }

  // ----- From a day number back to its date -----

  /** ECMAScript's YearFromTime: the largest year starting on or before the day. */
  function YearFrom(day: int, year: int): (result: int)
    requires DayFromYear(year) <= day
    ensures result >= year && DayFromYear(result) <= day < DayFromYear(result + 1)
    decreases day - DayFromYear(year)
  {
    YearStep(year);
    if day < DayFromYear(year + 1) then year else YearFrom(day, year + 1)
  }

  function MonthFrom(year: int, offset: int, month: int): (result: int)
    requires 1 <= month <= 12
    requires DaysBeforeMonth(year, month) <= offset < YearLength(year)
    ensures month <= result <= 12
    ensures DaysBeforeMonth(year, result) <= offset < DaysBeforeMonth(year, result + 1)
    decreases 12 - month
  {
    MonthsFillYear(year);
    if offset < DaysBeforeMonth(year, month + 1) then month else MonthFrom(year, offset, month + 1)
  }

  /** The days the four-digit form covers: 0000-01-01 to 9999-12-31. */
  ghost predicate FourDigitYear(day: int) {
    DayFromYear(0) <= day < DayFromYear(10_000)
  }

  function DateOfDay(day: int): (date: Date)
    requires DayFromYear(0) <= day
    ensures Valid(date) && DayNumber(date) == day && date.year >= 0
  {
    var year := YearFrom(day, 0);
    var offset := day - DayFromYear(year);
    YearStep(year);
    var month := MonthFrom(year, offset, 1);
    Date(year, month, offset - DaysBeforeMonth(year, month) + 1)
  }

  // ----- Strings -----

  predicate IsDigit(c: char) { '0' <= c <= '9' }

  predicate AllDigits(s: string) { forall i :: 0 <= i < |s| ==> IsDigit(s[i]) }

  /** The number a digit string denotes. */
  function NumberOf(s: string): (n: int)
    requires AllDigits(s)
    ensures n >= 0
  {
    if s == [] then 0 else NumberOf(s[..|s| - 1]) * 10 + (s[|s| - 1] as int - '0' as int)
  }

  /** The regular expression of the source: four digits, dash, two digits, dash, two digits. */
  predicate Shape(s: string) {
    && |s| == 10 && s[4] == '-' && s[7] == '-'
    && AllDigits(s[..4]) && AllDigits(s[5..7]) && AllDigits(s[8..])
  }

  function Parse(s: string): Date
    requires Shape(s)
  {
    Date(NumberOf(s[..4]), NumberOf(s[5..7]), NumberOf(s[8..]))
  }

  predicate IsIsoCalendarDate(s: string) {
    Shape(s) && Valid(Parse(s))
  }

  function DigitAt(s: string, i: nat): int
    requires i < |s|
  {
    s[i] as int - '0' as int
  }

  lemma TwoDigits(s: string)
    requires |s| == 2 && AllDigits(s)
    ensures NumberOf(s) == 10 * DigitAt(s, 0) + DigitAt(s, 1)
  {
    assert s[..1][..0] == [];
    assert NumberOf(s[..1]) == DigitAt(s, 0);
  }

  lemma FourDigits(s: string)
    requires |s| == 4 && AllDigits(s)
    ensures NumberOf(s) == 1000 * DigitAt(s, 0) + 100 * DigitAt(s, 1) + 10 * DigitAt(s, 2) + DigitAt(s, 3)
  {
    TwoDigits(s[..2]);
    assert s[..3][..2] == s[..2];
    assert NumberOf(s[..3]) == 10 * NumberOf(s[..2]) + DigitAt(s, 2);
  }

  /**
   Exactly these strings are accepted: ten characters, dashes at 4 and 7, digits elsewhere, a month from 1 to 12
   and a day from 1 to the number of days between that month's start and the next one's.
   */
  lemma AcceptedIffOnCalendar(s: string)
    ensures IsIsoCalendarDate(s) <==>
            && |s| == 10 && s[4] == '-' && s[7] == '-'
            && (forall i :: 0 <= i < 10 && i != 4 && i != 7 ==> '0' <= s[i] <= '9')
            && var year := 1000 * DigitAt(s, 0) + 100 * DigitAt(s, 1) + 10 * DigitAt(s, 2) + DigitAt(s, 3);
               var month, day := 10 * DigitAt(s, 5) + DigitAt(s, 6), 10 * DigitAt(s, 8) + DigitAt(s, 9);
               1 <= month <= 12 && 1 <= day <= CivilMonthLength(year, month)
  {
    hide CivilMonthLength, DaysInMonth, NumberOf;
    if Shape(s) {
      forall i | 0 <= i < 10 && i != 4 && i != 7 ensures IsDigit(s[i]) {
        if i < 4 { assert s[i] == s[..4][i]; } else if i < 7 { assert s[i] == s[5..7][i - 5]; } else { assert s[i] == s[8..][i - 8]; }
      }
      FourDigits(s[..4]);
      TwoDigits(s[5..7]);
      TwoDigits(s[8..]);
      if 1 <= Parse(s).month <= 12 {
        MonthLengthIsCivil(Parse(s).year, Parse(s).month);
      }
    }
  }

  /** Zero-padded decimal digits. */
  function Digits(n: int, width: nat): (s: string)
    requires n >= 0
    ensures |s| == width && AllDigits(s)
  {
    if width == 0 then "" else Digits(n / 10, width - 1) + [(n % 10 + '0' as int) as char]
  }

  /** dayjs's `format('YYYY-MM-DD')`. */
  function Format(date: Date): string
    requires date.year >= 0 && date.month >= 0 && date.day >= 0
  {
    Digits(date.year, 4) + "-" + Digits(date.month, 2) + "-" + Digits(date.day, 2)
  }

  function Pow10(width: nat): int {
    if width == 0 then 1 else 10 * Pow10(width - 1)
  }

  lemma {:induction false} DigitsRoundTrip(n: int, width: nat)
    requires 0 <= n < Pow10(width)
    ensures NumberOf(Digits(n, width)) == n
  {
    if width > 0 {
      DigitsRoundTrip(n / 10, width - 1);
      var s := Digits(n, width);
      assert s[..|s| - 1] == Digits(n / 10, width - 1);
    }
  }

  /** Formatting a valid four-digit-year date gives an accepted string that parses back to it. */
  lemma FormatRoundTrip(date: Date)
    requires Valid(date) && 0 <= date.year < 10_000
    ensures IsIsoCalendarDate(Format(date)) && Parse(Format(date)) == date
  {
    var s := Format(date);
    assert s[..4] == Digits(date.year, 4) && s[5..7] == Digits(date.month, 2) && s[8..] == Digits(date.day, 2);
    assert Pow10(2) == 100 && Pow10(4) == 10_000;
    DigitsRoundTrip(date.year, 4);
    DigitsRoundTrip(date.month, 2);
    DigitsRoundTrip(date.day, 2);
  }

  /** JavaScript's `<` on strings: lexicographic by code unit. */
  predicate StringLess(a: string, b: string) {
    if b == [] then false
    else if a == [] then true
    else a[0] < b[0] || (a[0] == b[0] && StringLess(a[1..], b[1..]))
  }

  lemma {:induction false} StringLessConcat(a: string, b: string, c: string, d: string)
    requires |a| == |b|
    ensures StringLess(a + c, b + d) <==> StringLess(a, b) || (a == b && StringLess(c, d))
  {
    if a == [] {
      assert a + c == c && b + d == d;
    } else {
      assert (a + c)[1..] == a[1..] + c && (b + d)[1..] == b[1..] + d;
      StringLessConcat(a[1..], b[1..], c, d);
      assert a == [a[0]] + a[1..] && b == [b[0]] + b[1..];
    }
  }

  /** Equally long digit strings compare as the numbers they denote. */
  lemma {:induction false} DigitsOrder(a: string, b: string)
    requires |a| == |b| && AllDigits(a) && AllDigits(b)
    ensures StringLess(a, b) <==> NumberOf(a) < NumberOf(b)
    ensures a == b <==> NumberOf(a) == NumberOf(b)
  {
    if a != [] {
      var n := |a| - 1;
      DigitsOrder(a[..n], b[..n]);
      assert a == a[..n] + [a[n]] && b == b[..n] + [b[n]];
      StringLessConcat(a[..n], b[..n], [a[n]], [b[n]]);
      assert StringLess([a[n]], [b[n]]) <==> a[n] < b[n];
    }
  }

  /** The lexicographic claim of the source: accepted strings compare as the days they name. */
  lemma LexicographicIsChronological(a: string, b: string)
    requires IsIsoCalendarDate(a) && IsIsoCalendarDate(b)
    ensures StringLess(a, b) <==> DayNumber(Parse(a)) < DayNumber(Parse(b))
    ensures StringLess(a, b) <==> CivilDay(Parse(a).year, Parse(a).month, Parse(a).day)
                                  < CivilDay(Parse(b).year, Parse(b).month, Parse(b).day)
  {
    hide CivilDay, DayNumber, DaysInMonth;
    DayNumberIsCivil(Parse(a));
    DayNumberIsCivil(Parse(b));
    DigitsOrder(a[..4], b[..4]);
    DigitsOrder(a[5..7], b[5..7]);
    DigitsOrder(a[8..], b[8..]);
    assert a == a[..4] + ("-" + (a[5..7] + ("-" + a[8..])));
    assert b == b[..4] + ("-" + (b[5..7] + ("-" + b[8..])));
    StringLessConcat(a[..4], b[..4], "-" + (a[5..7] + ("-" + a[8..])), "-" + (b[5..7] + ("-" + b[8..])));
    StringLessConcat("-", "-", a[5..7] + ("-" + a[8..]), b[5..7] + ("-" + b[8..]));
    StringLessConcat(a[5..7], b[5..7], "-" + a[8..], "-" + b[8..]);
    StringLessConcat("-", "-", a[8..], b[8..]);
    DayNumberOrder(Parse(a), Parse(b));
  }

  // ----- The business date of an instant -----

  function KstCalendarDate(instant: Instant): string
    requires FourDigitYear(KstDay(instant))
  {
    Format(DateOfDay(KstDay(instant)))
  }

  lemma YearBelow(day: int)
    requires FourDigitYear(day)
    ensures DateOfDay(day).year < 10_000
  {
    if DateOfDay(day).year >= 10_000 {
      DateWithinYear(DateOfDay(day));
      YearMonotone(10_000, DateOfDay(day).year);
    }
  }

  /** It is always an accepted string, and it names the day containing the instant. */
  lemma CalendarDateNamesItsDay(instant: Instant)
    requires FourDigitYear(KstDay(instant))
    ensures IsIsoCalendarDate(KstCalendarDate(instant))
    ensures DayNumber(Parse(KstCalendarDate(instant))) == KstDay(instant)
    ensures var date := Parse(KstCalendarDate(instant));
            CivilDay(date.year, date.month, date.day) == KstDay(instant)
  {
    YearBelow(KstDay(instant));
    FormatRoundTrip(DateOfDay(KstDay(instant)));
    DayNumberIsCivil(DateOfDay(KstDay(instant)));
  }

  /** The end of the day is the last instant with the same calendar date, and no earlier one is. */
  lemma EndOfDayKeepsDate(instant: Instant, other: Instant)
    requires FourDigitYear(KstDay(instant)) && FourDigitYear(KstDay(other))
    ensures KstDay(KstEndOfDay(instant)) == KstDay(instant)
    ensures KstCalendarDate(KstEndOfDay(instant)) == KstCalendarDate(instant)
    ensures KstCalendarDate(other) == KstCalendarDate(instant) ==> other <= KstEndOfDay(instant)
    ensures KstEndOfDay(instant) < other ==> StringLess(KstCalendarDate(instant), KstCalendarDate(other))
  {
    EndOfDayIsLast(instant, other);
    CalendarDateNamesItsDay(instant);
    CalendarDateNamesItsDay(other);
    if KstEndOfDay(instant) < other {
      LexicographicIsChronological(KstCalendarDate(instant), KstCalendarDate(other));
      DayBounds(instant);
      DayBounds(other);
    }
  }
}
