/**
 * A single local timeline: an instant is a whole number of milliseconds since
 * 1970-01-01 00:00 local time, with no time zone or daylight-saving shifts.
 * Calendar days are consecutive blocks of 86 400 000 ms.
 */
module Calendar {

  type Instant = int

  const MsPerSecond: int := 1000
  const MsPerMinute: int := 60 * MsPerSecond
  const MsPerHour: int := 60 * MsPerMinute
  const MsPerDay: int := 24 * MsPerHour

  /** The calendar day (days since 1970-01-01) on which `t` falls. */
  function Day(t: Instant): int
  {
    t / MsPerDay
  }

  /** Midnight at the start of day `d`. */
  function DayStart(d: int): Instant
  {
    d * MsPerDay
  }

  /** The last millisecond of day `d` (the source's `setHours(23, 59, 59, 999)`). */
  function DayEnd(d: int): Instant
  {
    DayStart(d) + MsPerDay - 1
  }

  /** Milliseconds elapsed since the midnight that starts `t`'s day. */
  function TimeOfDay(t: Instant): int
  {
    t % MsPerDay
  }

  /**
   * `setHours(hour, minute, 0, 0)` applied to a copy of `t`: keeps `t`'s day
   * and sets the time of day; out-of-range hours or minutes roll over into
   * neighbouring days as JavaScript's `Date` does.
   */
  function SetHours(t: Instant, hour: int, minute: int): Instant
  {
    DayStart(Day(t)) + hour * MsPerHour + minute * MsPerMinute
  }

  /** Instants inside a day's block are exactly the instants on that day. */
  lemma DayBlock(t: Instant, d: int)
    ensures DayStart(d) <= t <= DayEnd(d) <==> Day(t) == d
  {
  }

  /** Setting a time of day that fits in a day keeps the day and fixes the time of day. */
  lemma SetHoursKeepsDay(t: Instant, hour: int, minute: int)
    requires 0 <= hour * 60 + minute < 24 * 60
    ensures Day(SetHours(t, hour, minute)) == Day(t)
    ensures TimeOfDay(SetHours(t, hour, minute)) == hour * MsPerHour + minute * MsPerMinute
  {
    var x := hour * MsPerHour + minute * MsPerMinute;
    assert x == (hour * 60 + minute) * MsPerMinute;
    assert 0 <= x < MsPerDay;
    DayBlock(DayStart(Day(t)) + x, Day(t));
  }

  /**
   * Days from 1970-01-01 to the proleptic Gregorian date `y`-`m`-`d`
   * (`m` from 1 to 12); a day outside the month counts on from its first day.
   */
  function DaysFromCivil(y: int, m: int, d: int): int
    requires 1 <= m <= 12
  {
    var y' := if m <= 2 then y - 1 else y;
    var era := y' / 400;
    var yoe := y' - era * 400;
    var mp := if m > 2 then m - 3 else m + 9;
    var doy := (153 * mp + 2) / 5 + d - 1;
    var doe := yoe * 365 + yoe / 4 - yoe / 100 + doy;
    era * 146097 + doe - 719468
  }

  /**
   * `new Date(year, monthIndex, day, hours, minutes, seconds)` in local time,
   * with a zero-based month; days, hours, minutes and seconds out of range
   * roll over.
   */
  function NewDate(year: int, monthIndex: int, day: int, hours: int, minutes: int, seconds: int): Instant
    requires 0 <= monthIndex < 12
  {
    DayStart(DaysFromCivil(year, monthIndex + 1, 1) + day - 1)
      + hours * MsPerHour + minutes * MsPerMinute + seconds * MsPerSecond
  }

  /** The year of the fixed "current date". */
  const AnchorYear: int := 2025

  /** July, as the zero-based month of the fixed "current date". */
  const AnchorMonthIndex: int := 6

  /** The fixed stand-in for "now": 2025-07-05 12:00 local time. */
  const CurrentDate: Instant := NewDate(AnchorYear, AnchorMonthIndex, 5, 12, 0, 0)

  /** The calendar day of the fixed "current date". */
  const AnchorDay: int := Day(CurrentDate)

  /** The anchor is noon on day 20274, which is 2025-07-05. */
  lemma AnchorIsJulyFifth()
    ensures DaysFromCivil(1970, 1, 1) == 0
    ensures DaysFromCivil(2025, 7, 1) == 20270
    ensures AnchorDay == 20274 && AnchorDay == DaysFromCivil(2025, 7, 5)
    ensures CurrentDate == DayStart(AnchorDay) + 12 * MsPerHour
  {
    DayBlock(CurrentDate, 20274);
  }

  /**
   * Day `day` of July 2025 is day number 20270 + day - 1, for any `day`: a
   * day beyond the month rolls over into the following months (the `Date`
   * constructor's behaviour) and day 0 is June 30.
   */
  lemma JulyDayNumbers(day: int)
    ensures DaysFromCivil(2025, 7, day) == 20270 + day - 1
    ensures day == 0 ==> DaysFromCivil(2025, 7, day) == DaysFromCivil(2025, 6, 30)
  {
    AnchorIsJulyFifth();
  }
}
