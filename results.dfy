/** Optional values and results with an error, used across the model. */
module Results {

  datatype Option<+T> = None | Some(value: T)

  /** The outcome of an operation: a value, or the error it raised. */
  datatype Result<+T, +E> = Ok(value: T) | Err(error: E)
}
