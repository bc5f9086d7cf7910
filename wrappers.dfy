/** Optional values and error-or-value results, standing in for Go's
    `(value, ok)` and `(value, error)` return pairs. */
module Wrappers {

  datatype Option<+T> = None | Some(value: T)

  /** `Failure(e)` carries the text that Go's `err.Error()` would return. */
  datatype Result<+T> = Success(value: T) | Failure(error: string)
}
