/** Failure-carrying result types shared by every module of the model. */
module Results {

  /** A value that may be absent (Python's None). */
  datatype Option<+T> = None | Some(value: T)

  /** An operation that yields a value or an error. */
  datatype Result<+T, +E> = Ok(value: T) | Err(error: E)

  /** An operation that yields nothing but may fail. */
  datatype Outcome<+E> = Pass | Fail(error: E)
}
