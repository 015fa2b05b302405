/** Failure-compatible wrappers shared by every stage of the pipeline. */
module Results {

  /** An optional value: a manifest that may be absent, a pattern that may not match. */
  datatype Option<+T> = None | Some(value: T)

  /** The outcome of a step that may fail with a human-readable message, as Go's `(T, error)` pair. */
  datatype Result<+T> = Success(value: T) | Failure(error: string) {

    predicate IsFailure() {
      Failure?
    }

    function PropagateFailure<U>(): Result<U>
      requires Failure?
    {
      Failure(error)
    }

    function Extract(): T
      requires Success?
    {
      value
    }
  }
}
