/** Failure-carrying values shared by the survey formatter's modules. */
module Results {

  /** A value that may be absent, used where the formatter parses text. */
  datatype Option<+T> = None | Some(value: T)

  /** The outcome of a step that the Python formatter aborts on with an exception. */
  datatype Result<+T, +E> = Success(value: T) | Failure(error: E)
}
