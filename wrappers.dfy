/** Optional values: the model's rendering of `null`, `undefined` and
    absent properties in the original TypeScript. */
module Wrappers {

  datatype Option<+T> = None | Some(value: T) {

    /** The value if present, else `default` (the `??` / `||` fallbacks). */
    function GetOr(default: T): T {
      match this
      case Some(v) => v
      case None => default
    }
  }

  /** The outcome of an operation that may be refused with an error. */
  datatype Result<+T, +E> = Success(value: T) | Failure(error: E)
}
