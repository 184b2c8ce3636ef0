/** Calendar dates as integer tuples in place of JavaScript `Date` objects. The
    month is the zero-based index `getMonth()` returns. */
module Dates {
  import opened Optional
  import opened Text
  import opened JsValues

  datatype Date = Date(year: int, month: int, day: int)

  predicate IsLeapYear(y: int) {
    (y % 4 == 0 && y % 100 != 0) || y % 400 == 0
  }

  function DaysInMonth(year: int, month: int): int
    requires 0 <= month < 12
  {
    if month == 1 then (if IsLeapYear(year) then 29 else 28)
    else if month == 3 || month == 5 || month == 8 || month == 10 then 30
    else 31
  }

  /** A date that names a real calendar day (no JavaScript roll-over needed). */
  predicate IsCalendarDate(d: Date) {
    0 <= d.month < 12 && 1 <= d.day <= DaysInMonth(d.year, d.month)
  }

  /** `a < b` for the two midnights, for calendar dates. */
  predicate Before(a: Date, b: Date) {
    a.year < b.year || (a.year == b.year && (a.month < b.month || (a.month == b.month && a.day < b.day)))
  }

  /** The day a valid JavaScript `Date` falls on: `getMonth()` is 0..11 and
      `getDate()` a day of that month. */
  type DayDate = d: Date | IsCalendarDate(d) && d.year >= 0 witness Date(1970, 0, 1)

  /** What `new Date(x)` makes of a value: its calendar day, or None for an
      Invalid Date. The parsing rules of the JavaScript engine are not modelled,
      so callers take them as a parameter of this type. */
  type DateParser = JVal -> Option<DayDate>

  /** `a < b` on two `Date` objects: false whenever either is an Invalid Date,
      whose time value is NaN. */
  predicate DateLess(a: Option<DayDate>, b: Option<DayDate>) {
    a.Some? && b.Some? && Before(a.value, b.value)
  }

  /** `String(n).padStart(2, "0")` for a non-negative number. */
  function Pad2(n: nat): (r: string)
    ensures |r| >= 2
    ensures forall i :: 0 <= i < |r| ==> IsDigit(r[i])
    ensures n < 100 ==> |r| == 2
  {
    if n < 10 then "0" + NatToString(n) else NatToString(n)
  }
}
