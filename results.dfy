/** Failure-carrying values used throughout the model: a Go pointer that may be
    nil becomes an Option, and a Go `(value, error)` pair becomes a Result. */
module Results {

  datatype Option<+T> = None | Some(value: T)

  datatype Result<+T, +E> = Ok(value: T) | Err(error: E)
}
