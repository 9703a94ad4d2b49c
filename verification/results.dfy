/** Failure-carrying values used throughout the model in place of Python's
    `None` and raised exceptions. */
module Results {

  /** A value that may be missing; stands for Python's `Optional[T]`. */
  datatype Option<+T> = None | Some(value: T)

  /** The outcome of an operation that either returns a value or raises. */
  datatype Result<+T, +E> = Success(value: T) | Failure(error: E)

  /** The outcome of a check that returns nothing or raises. */
  datatype Outcome<+E> = Pass | Fail(error: E)
}
