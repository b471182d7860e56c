/** Calendar dates as stored in the entry_date column, ordered as ORDER BY orders them. */
module Dates {

  datatype Date = Date(year: int, month: int, day: int)

  /** a comes no later than b: lexicographic on (year, month, day). */
  predicate NotAfter(a: Date, b: Date)
  {
    || a.year < b.year
    || (a.year == b.year && a.month < b.month)
    || (a.year == b.year && a.month == b.month && a.day <= b.day)
  }
}
