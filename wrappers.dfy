/** Option and Result, the two wrappers the keychain facade needs:
    Swift's `T?` and `Result<Success, Failure>`. */
module Wrappers {

  /** Swift's optional `T?`. */
  datatype Option<+T> = None | Some(value: T)

  /** Swift's `Result<R, E>`: `.success(value)` or `.failure(error)`. */
  datatype Result<+R, +E> = Success(value: R) | Failure(error: E)
}
