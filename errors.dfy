/** Error values and the two failure-carrying wrappers used throughout the model.
    Go's `error` return values become `Option<Error>` (nil is `None`), and a
    `(T, error)` pair becomes `Result<T>`. */
module Errors {

  /** An error value produced by one of the collaborators (file system, child
      process, decoder, environment store). The core never inspects it; it only
      propagates it. */
  datatype Error = Error(message: string)

  datatype Option<+T> = None | Some(value: T)

  datatype Result<+T> = Ok(value: T) | Err(error: Error)
}
