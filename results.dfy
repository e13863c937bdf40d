/** Go's two ways of reporting failure, as Dafny values: a nil-able value and a
    (value, error) pair whose error is an error message. */
module Results {

  /** A value that may be absent; None plays the role of Go's nil. */
  datatype Option<+T> = None | Some(value: T)

  /** The outcome of a Go call that returns (T, error): Ok when the error is nil. */
  datatype Result<+T> = Ok(value: T) | Err(msg: string)
}
