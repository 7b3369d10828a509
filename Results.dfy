/** Success/failure wrappers used for the error paths of both bindings. */
module Results {

  /** A value-carrying result: the operation returned `value` or raised `error`. */
  datatype Result<+T, +E> = Ok(value: T) | Err(error: E)

  /** A result without a value: the operation completed or raised `error`. */
  datatype Outcome<+E> = Pass | Fail(error: E)
}
