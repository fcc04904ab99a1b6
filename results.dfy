/** Option and Result: how the model reports an absent value or an error
    instead of Go's `(value, error)` pairs. */
module Results {

  datatype Option<+T> = None | Some(value: T)

  datatype Result<+T, +E> = Ok(value: T) | Err(error: E)
}
