/** Optional values and results with an error, for the nullable references
    and force-unwraps of the popup view. */
module Options {

  /** A Swift optional: `nil` or a wrapped value. */
  datatype Option<+T> = None | Some(value: T) {

    /** The wrapped value, or `default` when nil (Swift's `??`). */
    function GetOr(default: T): T {
      match this
      case Some(v) => v
      case None => default
    }
  }

  /** The outcome of an operation that can trap. */
  datatype Result<+T, +E> = Success(value: T) | Failure(error: E)
}
