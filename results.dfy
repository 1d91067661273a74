/** Failure-compatible wrappers: Java's null and exceptions become values. */
module Results {

  datatype Option<+T> = None | Some(value: T)

  /** A value, or the failure that a Java method would have thrown instead. */
  datatype Result<+T, +E> = Success(value: T) | Failure(error: E) {

    predicate IsFailure() {
      Failure?
    }

    function PropagateFailure<U>(): Result<U, E>
      requires Failure?
    {
      Failure(error)
    }

    function Extract(): T
      requires Success?
    {
      value
    }
  }

  /** The outcome of a `void` Java method: it returns, or it throws `error`. */
  datatype Outcome<+E> = Pass | Fail(error: E)
}
