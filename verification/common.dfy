/** Option and Result, the shapes the other modules use for Go's nil pointers and
    (value, error) pairs. */
module Common {

  datatype Option<+T> = None | Some(value: T)

  datatype Result<+T, +E> = Ok(value: T) | Err(error: E)
}
