/** Optional values and results with an error, used where the invoicing code
    works with `None` or raises an exception. */
module Results {

  /** A value that may be absent (Python's `None`). */
  datatype Option<+T> = None | Some(value: T) {

    /** The value, or `default` when absent: `x if x is not None else default`.
        Python's `x or default` also replaces a zero value, which agrees
        with this only when `default` is zero. */
    function GetOr(default: T): T {
      match this
      case Some(v) => v
      case None => default
    }
  }

  /** Either a computed value or the error the computation raised. */
  datatype Result<+T, +E> = Success(value: T) | Failure(error: E)
}
