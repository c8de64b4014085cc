/** Optional values and results, as the application's `undefined`/`null`
    fields and its success-or-error outcomes. */
module Common {

  datatype Option<+T> = None | Some(value: T) {
    /** `x ?? d`. */
    function GetOr(default: T): T {
      match this
      case Some(v) => v
      case None => default
    }
  }

  datatype Result<+T, +E> = Ok(value: T) | Err(error: E)

  /** `after` is what a field-wise update leaves: the given value when there
      is one, `before` otherwise. */
  predicate SetOrKept<T(==)>(given: Option<T>, before: T, after: T) {
    && (given.Some? ==> after == given.value)
    && (given.None? ==> after == before)
  }
}
