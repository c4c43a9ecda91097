/** Failure-carrying return values shared by the planning modules. */
module Results {

  /** A value that may be missing: Python's `None` next to a real value. */
  datatype Option<+T> = None | Some(value: T)

  /** A computation that either produced a value or raised an error. */
  datatype Result<+T, +E> = Success(value: T) | Failure(error: E)
}
