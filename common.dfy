/** Optional values and error results shared by the other modules. */
module Common {

  /** An optional value; `None` plays the part of Python's `None`. */
  datatype Option<T> = None | Some(value: T) {
    /** The wrapped value, or `default` when there is none (Python's `dict.get(key, default)`). */
    function GetOr(default: T): T {
      match this
      case Some(v) => v
      case None => default
    }
  }

  /** A value or the error that a Python `raise` would have carried. */
  datatype Result<T, E> = Success(value: T) | Failure(error: E)

  /** Success without a value, or the error a Python `raise` would have carried. */
  datatype Outcome<E> = Pass | Fail(error: E)
}
