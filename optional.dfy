/** Optional and failing values: a missing JSON field or query result, and an
    operation that is refused. */
module Optional {

  /** A value that may be absent (`null`/`undefined` in the screens). */
  datatype Option<T> = None | Some(value: T) {

    /** The value, or `default` when absent (the `x || default` idiom). */
    function GetOr(default: T): T {
      match this
      case Some(v) => v
      case None => default
    }
  }

  /** The outcome of an operation that can be refused. */
  datatype Result<T, E> = Success(value: T) | Failure(error: E)
}
