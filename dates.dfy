/** Local calendar date-times and the handful of date-fns operations the
    schedule generator uses (addDays, isWeekend, setHours, setMinutes,
    setSeconds). Days are numbered consecutively; day 0 is 1970-01-01, a
    Thursday. Time zones and daylight-saving shifts are not modelled: a
    date-time is a local wall-clock reading. */
module Dates {

  /** A local wall-clock instant: a day number and a time of day. */
  datatype DateTime = DateTime(day: int, hour: int, minute: int, second: int, milli: int)

  /** `a <= b` on instants: lexicographic on (day, hour, minute, second, milli). */
  predicate Le(a: DateTime, b: DateTime) {
    a.day < b.day || (a.day == b.day &&
      (a.hour < b.hour || (a.hour == b.hour &&
        (a.minute < b.minute || (a.minute == b.minute &&
          (a.second < b.second || (a.second == b.second && a.milli <= b.milli)))))))
  }

  /** Only the day decides the order of instants on different days. */
  lemma LeDays(a: DateTime, b: DateTime)
    ensures Le(a, b) ==> a.day <= b.day
    ensures a.day < b.day ==> Le(a, b)
  {
  }

  /** Same wall-clock time, `n` days later (earlier when `n` is negative). */
  function AddDays(t: DateTime, n: int): (r: DateTime)
    ensures r.day - t.day == n
    ensures SameTimeOfDay(r, t)
  {
    t.(day := t.day + n)
  }

  /** Moving forward never goes before the start and moving backward never
      goes after it; a positive move lands strictly later. */
  lemma AddDaysMoves(t: DateTime, n: int)
    ensures n >= 0 ==> Le(t, AddDays(t, n))
    ensures n <= 0 ==> Le(AddDays(t, n), t)
    ensures n > 0 ==> !Le(AddDays(t, n), t)
  {
  }

  /** Shifting a day number by `n` shifts its weekday by `n` modulo 7; with
      day 0 a Thursday this fixes the weekday of every day. */
  lemma WeekdayShift(day: int, n: int)
    ensures DayOfWeek(day + n) == (DayOfWeek(day) + n) % 7
  {
  }

  /** `<=` on instants is transitive. */
  lemma LeTrans(a: DateTime, b: DateTime, c: DateTime)
    requires Le(a, b) && Le(b, c)
    ensures Le(a, c)
  {
  }

  predicate SameTimeOfDay(a: DateTime, b: DateTime) {
    a.hour == b.hour && a.minute == b.minute && a.second == b.second && a.milli == b.milli
  }

  /** Replace the hour, keeping day, minutes, seconds and milliseconds. */
  function SetHours(t: DateTime, h: int): DateTime {
    t.(hour := h)
  }

  /** Replace the minutes, keeping everything else. */
  function SetMinutes(t: DateTime, m: int): DateTime {
    t.(minute := m)
  }

  /** Replace the seconds, keeping everything else (milliseconds included). */
  function SetSeconds(t: DateTime, s: int): DateTime {
    t.(second := s)
  }

  /** Day of the week, 0 = Sunday ... 6 = Saturday. */
  function DayOfWeek(day: int): (w: int)
    ensures 0 <= w < 7
    ensures day == 0 ==> w == 4
  {
    (day + 4) % 7
  }

  /** Day number `day` is a Saturday or a Sunday. */
  predicate WeekendDay(day: int) {
    DayOfWeek(day) == 0 || DayOfWeek(day) == 6
  }

  /** `isWeekend`: the instant falls on a Saturday or Sunday in the local calendar. */
  predicate IsWeekend(t: DateTime) {
    WeekendDay(t.day)
  }
}
