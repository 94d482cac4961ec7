/** Small value types shared by every component of the ETL job. */
module Basics {

  datatype Option<+T> = None | Some(value: T)

  /** The outcome of an operation that the job would abort with an exception. */
  datatype Result<+T, +E> = Success(value: T) | Failure(error: E)

  /** A calendar date, as a DATE column of the store holds it. */
  datatype Date = Date(year: int, month: int, day: int)

  /** Python's `str.startswith`: `prefix` is an initial segment of `s`. */
  predicate StartsWith(s: string, prefix: string)
  {
    |prefix| <= |s| && s[..|prefix|] == prefix
  }
}
