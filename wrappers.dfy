/** Failure-carrying values used where the Go code returns `(value, error)`. */
module Wrappers {

  datatype Option<+T> = None | Some(value: T)

  /** `Failure(e)` stands for a non-nil Go `error` whose `Error()` text is `e`. */
  datatype Result<+R> = Success(value: R) | Failure(error: string)
}
