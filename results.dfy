/** Option and Result, the two failure-carrying shapes the model uses. */
module Results {

  /** A value that may be absent: an optional field, `undefined`, a regex that did not match. */
  datatype Option<+T> = None | Some(value: T)

  /** The outcome of an operation that either returns a value or throws with a message. */
  datatype Result<+T, +E> = Ok(value: T) | Err(error: E)
}
