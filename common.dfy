/** Shared value types: optional values, results, calendar dates. */
module Common {

  datatype Option<+T> = None | Some(value: T)

  datatype Result<+T, +E> = Success(value: T) | Failure(error: E)

  /** A calendar date as Python's `datetime.date` holds it. Dates compare as
      (year, month, day) triples, which is calendar order for real dates. */
  datatype Date = Date(year: int, month: int, day: int)

  /** `a < b` on dates. */
  predicate Before(a: Date, b: Date)
  {
    a.year < b.year
    || (a.year == b.year && a.month < b.month)
    || (a.year == b.year && a.month == b.month && a.day < b.day)
  }

  /** `a <= b` on dates. */
  predicate NotAfter(a: Date, b: Date)
  {
    !Before(b, a)
  }

  /** Date order is a strict total order: exactly one of a < b, a == b, b < a. */
  lemma DateTrichotomy(a: Date, b: Date)
    ensures Before(a, b) || a == b || Before(b, a)
    ensures !(Before(a, b) && Before(b, a))
    ensures !Before(a, a)
  {
  }

  lemma DateTransitive(a: Date, b: Date, c: Date)
    requires Before(a, b) && Before(b, c)
    ensures Before(a, c)
  {
  }

  /** A Python string's truthiness: `not s` holds exactly for the empty string. */
  predicate Present(s: string)
  {
    |s| > 0
  }
}
