/** Small value types shared by the modules of the shop model. */
module Common {

  /** A value that may be missing (Python's `None`, or an empty lookup). */
  datatype Option<+T> = None | Some(value: T)

  /** The outcome of an operation that may raise. */
  datatype Result<+T, +E> = Success(value: T) | Failure(error: E)

  /** A reading of `datetime.now()`; the caller supplies it, so the model has no clock. */
  type Instant = int
}
