/** Option and Result types used by the blog store model. */
module Wrappers {

  /** An optional value: a storage slot that may be empty, a patch field that may be absent. */
  datatype Option<+T> = None | Some(value: T) {

    /** The wrapped value, or `default` when there is none. */
    function GetOr(default: T): T {
      match this
      case Some(v) => v
      case None => default
    }
  }

  /** Either a value or an error, as an async call either resolves or rejects. */
  datatype Result<+R, +E> = Success(value: R) | Failure(error: E)
}
