/** Option and Result values standing in for Go's nil pointers and `error` returns. */
module Results {

  datatype Option<+T> = None | Some(value: T)

  /** A value or a Go error, carried as its message text. */
  datatype Result<+T> = Ok(value: T) | Err(error: string)
}
