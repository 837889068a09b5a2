/** Failure-carrying values used throughout the model: a Python exception raised by an operation
    becomes a `Failure`/`Err` value returned by the corresponding Dafny member. */
module Results {

  datatype Option<+T> = None | Some(value: T)

  datatype Result<+T, +E> = Ok(value: T) | Err(error: E)

  /** An operation that returns nothing useful but may fail. */
  datatype Outcome<+E> = Pass | Fail(error: E)
}
