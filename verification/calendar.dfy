/** A UTC reading of System.DateTime on the proleptic Gregorian calendar,
    down to its 100-nanosecond tick. */
module Calendar {

  datatype DateTime = DateTime(
    year: int, month: int, day: int,
    hour: int, minute: int, second: int,
    /** Ticks (100 ns) past the whole second. */
    subsecondTicks: int)
  {
    /** The range System.DateTime can represent. */
    predicate Valid() {
      && 1 <= year <= 9999
      && 1 <= month <= 12
      && 1 <= day <= DaysInMonth(year, month)
      && 0 <= hour < 24
      && 0 <= minute < 60
      && 0 <= second < 60
      && 0 <= subsecondTicks < 10_000_000
    }

    /** The calendar date, without the time of day. */
    function DatePart(): Date {
      Date(year, month, day)
    }
  }

  datatype Date = Date(year: int, month: int, day: int)

  type UtcDateTime = t: DateTime | t.Valid() witness DateTime(1, 1, 1, 0, 0, 0, 0)

  predicate IsLeapYear(y: int) {
    (y % 4 == 0 && y % 100 != 0) || y % 400 == 0
  }

  function DaysInMonth(y: int, m: int): (d: int)
    requires 1 <= m <= 12
    ensures 28 <= d <= 31
  {
    if m == 2 then (if IsLeapYear(y) then 29 else 28)
    else if m == 4 || m == 6 || m == 9 || m == 11 then 30
    else 31
  }
}
