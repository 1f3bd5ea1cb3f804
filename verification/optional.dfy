/** Absent-or-present values (Java's nullable references) and success-or-failure results
    (Java's exceptions), used throughout the model. */
module Optional {

  /** A value that may be missing; `None` stands for Java's `null`. */
  datatype Option<T> = None | Some(value: T) {

    /** The held value, or `default` when there is none. */
    function GetOr(default: T): (r: T)
      ensures Some? ==> r == value
      ensures None? ==> r == default
    {
      match this
      case Some(v) => v
      case None => default
    }
  }

  /** The outcome of a computation that may abort. */
  datatype Result<T, E> = Success(value: T) | Failure(error: E)
}
