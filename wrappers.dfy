/** Error values and the Option/Result wrappers used for the source's `error` returns. */
module Wrappers {

  /** A Go `error`, kept as its message text. */
  type Error = string

  datatype Option<+T> = None | Some(value: T)

  /** A value or the error the source returns instead of it. */
  datatype Result<+T> = Ok(value: T) | Err(error: Error)
}
