/**
 * Calendar dates as the app stores them (`YYYY-MM-DD`, no time of day), the clock
 * reading that replaces `new Date()`, and the date helpers of the derivation layer:
 * `isPastDate`, `daysSince`, `getMonthYear` and `getWeekday`.
 */
module Dates {
  import Text

  /** A calendar date in the proleptic Gregorian calendar. */
  datatype Date = Date(year: nat, month: nat, day: nat)

  predicate IsLeapYear(y: nat) {
    y % 4 == 0 && (y % 100 != 0 || y % 400 == 0)
  }

  function DaysInMonth(y: nat, m: nat): nat
    requires 1 <= m <= 12
  {
    if m == 2 then (if IsLeapYear(y) then 29 else 28)
    else if m == 4 || m == 6 || m == 9 || m == 11 then 30
    else 31
  }

  function DaysInYear(y: nat): nat {
    if IsLeapYear(y) then 366 else 365
  }

  /** A date that exists: a month 1..12 and a day within that month. */
  predicate ValidDate(d: Date) {
    1 <= d.month <= 12 && 1 <= d.day <= DaysInMonth(d.year, d.month)
  }

  /** A date the app can hold: the `YYYY-MM-DD` strings it stores always name real days. */
  type CalDate = d: Date | ValidDate(d) witness Date(1970, 1, 1)

  /** Calendar order: `a` is an earlier day than `b` (the order of the ISO strings, too). */
  predicate Before(a: Date, b: Date) {
    || a.year < b.year
    || (a.year == b.year && a.month < b.month)
    || (a.year == b.year && a.month == b.month && a.day < b.day)
  }

  predicate OnOrBefore(a: Date, b: Date) {
    a == b || Before(a, b)
  }

  // ---------------------------------------------------------------------------
  // Day numbers: whole days since 0000-01-01
  // ---------------------------------------------------------------------------

  /** Days in the years before `y`; year 0 is a leap year. */
  function DaysBeforeYear(y: nat): int {
    365 * y + (y + 3) / 4 - (y + 99) / 100 + (y + 399) / 400
  }

  /** Days in the months of year `y` before month `m`. */
  function DaysBeforeMonth(y: nat, m: nat): nat
    requires 1 <= m <= 13
  {
    var cumulative := [0, 31, 59, 90, 120, 151, 181, 212, 243, 273, 304, 334, 365];
    cumulative[m - 1] + (if m > 2 && IsLeapYear(y) then 1 else 0)
  }

  lemma DaysBeforeNextMonth(y: nat, m: nat)
    requires 1 <= m <= 12
    ensures DaysBeforeMonth(y, m + 1) == DaysBeforeMonth(y, m) + DaysInMonth(y, m)
    ensures DaysBeforeMonth(y, 13) == DaysInYear(y)
  {
  }

  lemma QuarterStep(y: nat)
    ensures (y + 4) / 4 == (y + 3) / 4 + (if y % 4 == 0 then 1 else 0)
  {
  }

  lemma CenturyStep(y: nat)
    ensures (y + 100) / 100 == (y + 99) / 100 + (if y % 100 == 0 then 1 else 0)
  {
  }

  lemma QuadCenturyStep(y: nat)
    ensures (y + 400) / 400 == (y + 399) / 400 + (if y % 400 == 0 then 1 else 0)
  {
  }

  lemma Divisibility(y: nat)
    ensures y % 400 == 0 ==> y % 100 == 0
    ensures y % 100 == 0 ==> y % 4 == 0
  {
    if y % 400 == 0 {
      var q := y / 400;
      assert y == 400 * q;
      assert y == 100 * (4 * q);
    }
    if y % 100 == 0 {
      var q := y / 100;
      assert y == 100 * q;
      assert y == 4 * (25 * q);
    }
  }

  lemma DaysBeforeNextYear(y: nat)
    ensures DaysBeforeYear(y + 1) == DaysBeforeYear(y) + DaysInYear(y)
  {
    Divisibility(y);
    QuarterStep(y);
    CenturyStep(y);
    QuadCenturyStep(y);
  }

  /** The number of the day `d`, counting 0000-01-01 as day 0. */
  function DayNumber(d: Date): int
    requires ValidDate(d)
  {
    DaysBeforeYear(d.year) + DaysBeforeMonth(d.year, d.month) + d.day - 1
  }

  /** A date lies within its own year's block of day numbers. */
  lemma DayNumberWithinYear(d: Date)
    requires ValidDate(d)
    ensures DaysBeforeYear(d.year) <= DayNumber(d) < DaysBeforeYear(d.year + 1)
  {
    DaysBeforeNextYear(d.year);
    DaysBeforeNextMonth(d.year, d.month);
    var m := d.month;
    assert DaysBeforeMonth(d.year, m + 1) <= DaysBeforeMonth(d.year, 13);
  }

  lemma {:induction false} DaysBeforeYearMonotone(a: nat, b: nat)
    requires a <= b
    ensures DaysBeforeYear(a) <= DaysBeforeYear(b)
    decreases b - a
  {
    if a < b {
      DaysBeforeNextYear(a);
      DaysBeforeYearMonotone(a + 1, b);
    }
  }

  /** Within one year, a later month starts after every day of an earlier month. */
  lemma MonthOrder(y: nat, m1: nat, d1: nat, m2: nat)
    requires 1 <= m1 < m2 <= 12 && 1 <= d1 <= DaysInMonth(y, m1)
    ensures DaysBeforeMonth(y, m1) + d1 - 1 < DaysBeforeMonth(y, m2)
  {
    DaysBeforeNextMonth(y, m1);
  }

  /** Day numbers follow calendar order exactly. */
  lemma DayNumberOrder(a: Date, b: Date)
    requires ValidDate(a) && ValidDate(b)
    ensures Before(a, b) <==> DayNumber(a) < DayNumber(b)
    ensures a == b <==> DayNumber(a) == DayNumber(b)
  {
    if a.year < b.year {
      YearOrder(a, b);
    } else if b.year < a.year {
      YearOrder(b, a);
    } else if a.month < b.month {
      MonthOrder(a.year, a.month, a.day, b.month);
    } else if b.month < a.month {
      MonthOrder(a.year, b.month, b.day, a.month);
    }
  }

  /** Every day of an earlier year comes before every day of a later one. */
  lemma YearOrder(a: Date, b: Date)
    requires ValidDate(a) && ValidDate(b) && a.year < b.year
    ensures DayNumber(a) < DayNumber(b)
  {
    DayNumberWithinYear(a);
    DayNumberWithinYear(b);
    DaysBeforeYearMonotone(a.year + 1, b.year);
  }

  /** 1970-01-01, day 719528, the first day of the JavaScript epoch. */
  lemma EpochDayNumber()
    ensures ValidDate(Date(1970, 1, 1)) && DayNumber(Date(1970, 1, 1)) == 719528
  {
  }

  // ---------------------------------------------------------------------------
  // The clock
  // ---------------------------------------------------------------------------

  /** A day in milliseconds, `1000 * 60 * 60 * 24`. */
  const MsPerDay: int := 86400000

  /** A reading of `new Date()`: today's date and the milliseconds elapsed since its midnight. */
  datatype Instant = Instant(today: Date, msOfDay: nat)

  predicate ValidInstant(now: Instant) {
    ValidDate(now.today) && now.msOfDay < MsPerDay
  }

  /** A clock reading that can occur. */
  type Now = n: Instant | ValidInstant(n) witness Instant(Date(1970, 1, 1), 0)

  /** `new Date().getTime()`, counted from 0000-01-01 rather than from 1970 (only differences are used). */
  function TimeOf(now: Instant): int
    requires ValidInstant(now)
  {
    DayNumber(now.today) * 86400000 + now.msOfDay
  }

  /** `new Date(dateStr).getTime()`: midnight at the start of `d`. */
  function MidnightOf(d: Date): int
    requires ValidDate(d)
  {
    DayNumber(d) * 86400000
  }

  /** `isPastDate`: both sides are moved to midnight and compared with `<`. */
  predicate IsPastDate(d: Date, now: Instant)
    requires ValidDate(d) && ValidInstant(now)
  {
    MidnightOf(d) < MidnightOf(now.today)
  }

  /** A date is past exactly when it is an earlier calendar day than today; today itself is not past. */
  lemma IsPastDateIsBefore(d: Date, now: Instant)
    requires ValidDate(d) && ValidInstant(now)
    ensures IsPastDate(d, now) <==> Before(d, now.today)
    ensures !IsPastDate(now.today, now)
  {
    DayNumberOrder(d, now.today);
  }

  /** `daysSince`: `Math.floor` of the elapsed milliseconds divided by the length of a day. */
  function DaysSince(d: Date, now: Instant): int
    requires ValidDate(d) && ValidInstant(now)
  {
    (TimeOf(now) - MidnightOf(d)) / 86400000
  }

  /** Whole days elapsed: the time of day never adds a day, and a future date gives a negative count. */
  lemma DaysSinceIsDayDifference(d: Date, now: Instant)
    requires ValidDate(d) && ValidInstant(now)
    ensures DaysSince(d, now) == DayNumber(now.today) - DayNumber(d)
  {
    var k := DayNumber(now.today) - DayNumber(d);
    assert TimeOf(now) - MidnightOf(d) == k * 86400000 + now.msOfDay;
    FloorDivideDay(k, now.msOfDay);
  }

  lemma FloorDivideDay(k: int, r: int)
    requires 0 <= r < 86400000
    ensures (k * 86400000 + r) / 86400000 == k
  {
  }

  /** `getMonthYear`: the month (1-based) and year of a date; the date is one of that month's days. */
  function MonthYear(d: CalDate): (r: (nat, nat))
    ensures 1 <= r.0 <= 12 && 1 <= d.day <= DaysInMonth(r.1, r.0)
    ensures r.0 == d.month && r.1 == d.year
  {
    (d.month, d.year)
  }

  // ---------------------------------------------------------------------------
  // Weekday and ISO text
  // ---------------------------------------------------------------------------

  /** The one-letter Hebrew day names, Sunday first (`getDay()` order). */
  const WeekdayLetters: seq<string> := ["א", "ב", "ג", "ד", "ה", "ו", "ש"]

  /** `getDay()`: 0 for Sunday; 0000-01-01 was a Saturday. */
  function DayOfWeek(d: Date): (w: nat)
    requires ValidDate(d)
    ensures w < 7
  {
    (DayNumber(d) + 6) % 7
  }

  /** `getWeekday(new Date(date))`. */
  function Weekday(d: Date): string
    requires ValidDate(d)
  {
    WeekdayLetters[DayOfWeek(d)]
  }

  /** Consecutive days have consecutive weekdays. */
  lemma WeekdayNext(a: Date, b: Date)
    requires ValidDate(a) && ValidDate(b) && DayNumber(b) == DayNumber(a) + 1
    ensures DayOfWeek(b) == (DayOfWeek(a) + 1) % 7
  {
    NextModSeven(DayNumber(a) + 6);
  }

  lemma NextModSeven(n: int)
    ensures (n + 1) % 7 == (n % 7 + 1) % 7
  {
    var w, q := n % 7, n / 7;
    assert n == 7 * q + w;
    if w == 6 {
      assert n + 1 == 7 * (q + 1);
    } else {
      assert n + 1 == 7 * q + (w + 1);
    }
  }

  /** 1970-01-01 was a Thursday (ה). */
  lemma EpochWeekday()
    ensures ValidDate(Date(1970, 1, 1)) && Weekday(Date(1970, 1, 1)) == "ה"
  {
    EpochDayNumber();
    assert DayOfWeek(Date(1970, 1, 1)) == 4;
  }

  /** The `YYYY-MM-DD` text of a date. */
  function IsoText(d: Date): (s: string)
    ensures |s| >= 10
  {
    Text.PadZeros(Text.DigitString(d.year), 4) + "-" +
    Text.PadZeros(Text.DigitString(d.month), 2) + "-" +
    Text.PadZeros(Text.DigitString(d.day), 2)
  }
}
