/** Calendar dates as JavaScript's `Date` presents them in local time, just far
    enough to model `d.setFullYear(d.getFullYear() + 1)`. */
module Calendar {

  /** A local instant: year, month 1-12, day of the month, milliseconds into the day. */
  datatype DateTime = DateTime(year: int, month: int, day: int, msOfDay: int)

  predicate IsLeapYear(y: int) {
    (y % 4 == 0 && y % 100 != 0) || y % 400 == 0
  }

  function DaysInMonth(y: int, m: int): int {
    if m == 2 then (if IsLeapYear(y) then 29 else 28)
    else if m == 4 || m == 6 || m == 9 || m == 11 then 30
    else 31
  }

  /** The instants a `Date` can denote. */
  predicate Valid(d: DateTime) {
    1 <= d.month <= 12 && 1 <= d.day <= DaysInMonth(d.year, d.month) && 0 <= d.msOfDay < 86_400_000
  }

  /** A date the clock can return. */
  type Date = d: DateTime | Valid(d) witness DateTime(1970, 1, 1, 0)

  /** Strict chronological order. */
  predicate Before(a: DateTime, b: DateTime) {
    a.year < b.year
    || (a.year == b.year && a.month < b.month)
    || (a.year == b.year && a.month == b.month && a.day < b.day)
    || (a.year == b.year && a.month == b.month && a.day == b.day && a.msOfDay < b.msOfDay)
  }

  /** `setFullYear(getFullYear() + 1)`: same month, day and time one year later;
      a 29 February whose next year is not a leap year overflows to 1 March. */
  function AddOneYear(d: DateTime): (r: DateTime)
    requires Valid(d)
    ensures Valid(r) && Before(d, r)
    ensures r.year == d.year + 1 && r.msOfDay == d.msOfDay
    ensures (d.month != 2 || d.day != 29 || IsLeapYear(d.year + 1)) ==> r.month == d.month && r.day == d.day
    ensures (d.month == 2 && d.day == 29 && !IsLeapYear(d.year + 1)) ==> r.month == 3 && r.day == 1
  {
    if d.month == 2 && d.day == 29 && !IsLeapYear(d.year + 1) then DateTime(d.year + 1, 3, 1, d.msOfDay)
    else DateTime(d.year + 1, d.month, d.day, d.msOfDay)
  }
}
