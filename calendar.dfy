/**
 * The period bounds of the analytics routes and the weekly snapshot job.
 * An instant is a count of milliseconds and a day is a count of days, both
 * from 1970-01-01 in the server's local time (time zones and daylight saving
 * are not modelled, so every day has 86 400 000 ms). A calendar date is
 * (year, month 0..11, day of month), as the Date getters return it.
 */
module Calendar {

  const DayMs := 86400000

  /** Date.prototype.getDay of a day number: 0 is Sunday; day 0 was a Thursday. */
  function Weekday(day: int): (w: int)
    ensures 0 <= w < 7
  {
    (day + 4) % 7
  }

  /** An instant is its day's midnight plus its time of day. */
  lemma SplitInstant(t: int)
    ensures t == t / DayMs * DayMs + t % DayMs && 0 <= t % DayMs < DayMs
  {
  }

  lemma DayOf(day: int, ms: int)
    requires 0 <= ms < DayMs
    ensures (day * DayMs + ms) / DayMs == day && (day * DayMs + ms) % DayMs == ms
  {
  }

  /** [start, end] is the Monday-to-Sunday week that holds instant t. */
  predicate IsWeekOf(t: int, start: int, end: int) {
    start % DayMs == 0 && Weekday(start / DayMs) == 1 && end == start + 7 * DayMs - 1 && start <= t <= end
  }

  /** Only one week holds a given instant. */
  lemma WeekOfUnique(t: int, s1: int, e1: int, s2: int, e2: int)
    requires IsWeekOf(t, s1, e1) && IsWeekOf(t, s2, e2)
    ensures s1 == s2 && e1 == e2
  {
    var d1, d2 := s1 / DayMs, s2 / DayMs;
    assert s1 == d1 * DayMs && s2 == d2 * DayMs;
    assert -7 < d1 - d2 < 7;
    assert (d1 + 4) % 7 == (d2 + 4) % 7;
    SameResidue(d1 + 4, d2 + 4);
  }

  lemma SameResidue(a: int, b: int)
    requires -7 < a - b < 7 && a % 7 == b % 7
    ensures a == b
  {
    var qa, qb := a / 7, b / 7;
    assert a == 7 * qa + a % 7 && b == 7 * qb + b % 7;
    assert a - b == 7 * (qa - qb);
  }

  /**
   * getWeekBounds: step back to the Monday of the week (a Sunday belongs to
   * the week that began six days earlier), midnight of that Monday, then
   * the last millisecond of the Sunday six days on.
   */
  method WeekBounds(t: int) returns (start: int, end: int)
    ensures IsWeekOf(t, start, end)
    ensures Weekday(t / DayMs) == 0 ==> start / DayMs == t / DayMs - 6
    ensures Weekday(t / DayMs) != 0 ==> start / DayMs == t / DayMs - Weekday(t / DayMs) + 1
  {
    SplitInstant(t);
    var today := t / DayMs;
    var timeOfDay := t % DayMs;
    var day := Weekday(today);
    var monday := today - day + (if day == 0 then -6 else 1);
    var d := monday * DayMs + timeOfDay;
    DayOf(monday, timeOfDay);
    start := d / DayMs * DayMs;
    var sunday := start + 6 * DayMs;
    DayOf(monday + 6, 0);
    end := sunday / DayMs * DayMs + (DayMs - 1);
    DayOf(monday, 0);
  }

  predicate Leap(y: int) {
    y % 4 == 0 && (y % 100 != 0 || y % 400 == 0)
  }

  function DaysInMonth(y: int, m: int): (n: int)
    requires 0 <= m < 12
    ensures 28 <= n <= 31
    ensures m == 1 ==> (n == 29 <==> Leap(y))
  {
    if m == 1 then (if Leap(y) then 29 else 28)
    else if m == 3 || m == 5 || m == 8 || m == 10 then 30
    else 31
  }

  /** The days of the months before month m of year y; month 12 is the whole year. */
  function DaysBeforeMonth(y: int, m: int): int
    requires 0 <= m <= 12
  {
    if m == 0 then 0 else DaysBeforeMonth(y, m - 1) + DaysInMonth(y, m - 1)
  }

  lemma DaysInYear(y: int)
    ensures DaysBeforeMonth(y, 12) == if Leap(y) then 366 else 365
  {
    var feb := DaysInMonth(y, 1);
    assert DaysBeforeMonth(y, 1) == 31;
    assert DaysBeforeMonth(y, 2) == 31 + feb;
    assert DaysBeforeMonth(y, 3) == 62 + feb;
    assert DaysBeforeMonth(y, 4) == 92 + feb;
    assert DaysBeforeMonth(y, 5) == 123 + feb;
    assert DaysBeforeMonth(y, 6) == 153 + feb;
    assert DaysBeforeMonth(y, 7) == 184 + feb;
    assert DaysBeforeMonth(y, 8) == 215 + feb;
    assert DaysBeforeMonth(y, 9) == 245 + feb;
    assert DaysBeforeMonth(y, 10) == 276 + feb;
    assert DaysBeforeMonth(y, 11) == 306 + feb;
    assert DaysBeforeMonth(y, 12) == 337 + feb;
  }

  /** Leap years before y, counted from year 0 on the proleptic Gregorian calendar. */
  function LeapsBefore(y: int): int {
    (y - 1) / 4 - (y - 1) / 100 + (y - 1) / 400
  }

  /** The day number of January 1st of year y. */
  function YearStart(y: int): int {
    365 * (y - 1970) + LeapsBefore(y) - LeapsBefore(1970)
  }

  /** Each of the three divisions of LeapsBefore steps up by one exactly at a multiple. */
  lemma StepCount(y: int)
    ensures y / 4 - (y - 1) / 4 == if y % 4 == 0 then 1 else 0
    ensures y / 100 - (y - 1) / 100 == if y % 100 == 0 then 1 else 0
    ensures y / 400 - (y - 1) / 400 == if y % 400 == 0 then 1 else 0
  {
  }

  lemma YearStartNext(y: int)
    ensures YearStart(y + 1) == YearStart(y) + DaysBeforeMonth(y, 12)
  {
    DaysInYear(y);
    StepCount(y);
  }

  /**
   * The day number of the local date new Date(y, m, d) for a month 0..11:
   * a day of 0 or past the month's end runs into the neighbouring month.
   */
  function DayNumber(y: int, m: int, d: int): int
    requires 0 <= m < 12
  {
    YearStart(y) + DaysBeforeMonth(y, m) + d - 1
  }

  /** new Date(y, m, d) for a month index 0..12: month 12 is January of the next year. */
  function NewDate(y: int, m: int, d: int): int
    requires 0 <= m <= 12
  {
    if m == 12 then DayNumber(y + 1, 0, d) else DayNumber(y, m, d)
  }

  /** The day before the first of a month is the last day of the month before. */
  lemma DayZero(y: int, m: int)
    requires 0 <= m < 12
    ensures NewDate(y, m + 1, 0) == DayNumber(y, m, DaysInMonth(y, m))
  {
    if m == 11 {
      YearStartNext(y);
    }
  }

  /** Leap years on the Gregorian rule, and the calendar's anchor: 2024-01-01 was a Monday. */
  lemma CalendarExamples()
    ensures Leap(2000) && !Leap(1900) && Leap(2024) && !Leap(2023)
    ensures DaysInMonth(2024, 1) == 29 && DaysInMonth(2023, 1) == 28
    ensures Weekday(DayNumber(1970, 0, 1)) == 4
    ensures Weekday(DayNumber(2024, 0, 1)) == 1 && Weekday(DayNumber(2024, 0, 7)) == 0
  {
  }

  /** getFullYear(), getMonth(), getDate() and the time of day of an instant. */
  datatype Civil = Civil(year: int, month: int, day: int, timeOfDay: int)

  predicate ValidCivil(c: Civil) {
    0 <= c.month < 12 && 1 <= c.day <= DaysInMonth(c.year, c.month) && 0 <= c.timeOfDay < DayMs
  }

  function Instant(c: Civil): int
    requires 0 <= c.month < 12
  {
    DayNumber(c.year, c.month, c.day) * DayMs + c.timeOfDay
  }

  /** [start, end] runs from midnight of the first to the last millisecond of the last day of c's month. */
  predicate IsMonthOf(c: Civil, start: int, end: int)
    requires 0 <= c.month < 12
  {
    start == DayNumber(c.year, c.month, 1) * DayMs
    && end == DayNumber(c.year, c.month, DaysInMonth(c.year, c.month)) * DayMs + DayMs - 1
  }

  /**
   * getMonthBounds: midnight of day 1 of the month, and the last millisecond
   * of day 0 of the next month, which is the last day of this one.
   */
  method MonthBounds(c: Civil) returns (start: int, end: int)
    requires 0 <= c.month < 12
    ensures IsMonthOf(c, start, end)
    ensures end - start == DaysInMonth(c.year, c.month) * DayMs - 1
    ensures ValidCivil(c) ==> start <= Instant(c) <= end
  {
    start := NewDate(c.year, c.month, 1) * DayMs;
    var last := NewDate(c.year, c.month + 1, 0);
    DayZero(c.year, c.month);
    end := last * DayMs + (DayMs - 1);
  }

  /** The month bounds of consecutive months meet: the next month starts 1 ms after this one ends. */
  lemma MonthsAdjoin(y: int, m: int)
    requires 0 <= m < 12
    ensures NewDate(y, m + 1, 1) * DayMs == DayNumber(y, m, DaysInMonth(y, m)) * DayMs + DayMs
  {
    DayZero(y, m);
    if m == 11 {
      YearStartNext(y);
    }
  }
}
