/**
 * How the model spells Python's two ways of not producing a plain value: a
 * `None` where a value may be missing, and an exception raised instead of a
 * return.
 */
module Wrappers {
  /** A value or Python's `None`: a missing region, a month outside the calendar, text that does not parse. */
  datatype Option<T> = None | Some(value: T)

  /** `x if x is not None else fallback`. */
  function Otherwise<T>(x: Option<T>, fallback: T): T
  {
    if x.Some? then x.value else fallback
  }

  /** A return value, or the exception raised in its place. */
  datatype Result<T, E> = Success(value: T) | Failure(error: E)
}
