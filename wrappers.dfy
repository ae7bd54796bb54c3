/** Option, the JavaScript `Error` value and a Result over it: the error paths of the server and the client state. */
module Wrappers {

  /** A value that may be absent: a missing object key, `undefined`, `null`. */
  datatype Option<+T> = None | Some(value: T)

  /** A thrown JavaScript `Error`, reduced to its message. */
  datatype Error = Error(message: string)

  /** The outcome of an operation that either returns a value or throws. */
  datatype Result<+T> = Ok(value: T) | Err(error: Error)
}
