/** Calendar dates as the ledger stores them (`"YYYY-MM-DD"` from a date input),
    with the validity test that stands in for JavaScript's `Invalid Date`. */
module Dates {

  datatype Date = Date(year: int, month: int, day: int) {

    /** A calendar date the date input can produce. Anything else stands for
        `Invalid Date`, whose `getMonth()`, `getFullYear()` and time value are
        all `NaN`. */
    predicate Valid() {
      1 <= month <= 12 && 1 <= day <= DaysInMonth(year, month)
    }
  }

  /** Gregorian leap-year rule. */
  predicate IsLeapYear(y: int) {
    y % 4 == 0 && (y % 100 != 0 || y % 400 == 0)
  }

  function DaysInMonth(y: int, m: int): (n: int)
    requires 1 <= m <= 12
    ensures 28 <= n <= 31
    ensures n == 29 <==> m == 2 && IsLeapYear(y)
  {
    if m == 2 then (if IsLeapYear(y) then 29 else 28)
    else if m == 4 || m == 6 || m == 9 || m == 11 then 30
    else 31
  }

  /** `a` is not later than `b`: the chronological order of two valid dates,
      which is the order of their time values in JavaScript. */
  predicate NotLater(a: Date, b: Date) {
    a.year < b.year
    || (a.year == b.year && a.month < b.month)
    || (a.year == b.year && a.month == b.month && a.day <= b.day)
  }

  /** The chronological order is a total preorder; on dates it is also antisymmetric. */
  lemma NotLaterIsTotalOrder(a: Date, b: Date, c: Date)
    ensures NotLater(a, a)
    ensures NotLater(a, b) || NotLater(b, a)
    ensures NotLater(a, b) && NotLater(b, c) ==> NotLater(a, c)
    ensures NotLater(a, b) && NotLater(b, a) ==> a == b
  {
  }
}
