/** Failure-carrying wrappers shared by every component of the model. */
module Results {

  /** A value that may be missing (`undefined` or `null` in JavaScript). */
  datatype Option<+T> = None | Some(value: T)

  /** The outcome of an operation that can throw: `Err` carries what was thrown. */
  datatype Result<+T, +E> = Ok(value: T) | Err(error: E)
}
