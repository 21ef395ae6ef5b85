/** Result and Option values used for the Go (value, error) returns and
    for optional query parameters. */
module Wrappers {

  datatype Option<+T> = None | Some(value: T)

  datatype Result<+T, +E> = Success(value: T) | Failure(error: E)

  /** A Go `error` that is either nil (Pass) or set (Fail). */
  datatype Outcome<+E> = Pass | Fail(error: E)
}
