/** Python's exception kinds as seen by the library's callers, and the
    failure-compatible wrappers that carry them. */
module Outcomes {

  /** The exceptions the modelled code raises or lets escape. */
  datatype Error = TypeError | ValueError | KeyError | AttributeError

  datatype Option<+T> = None | Some(value: T)

  /** Either a value or the exception that was raised instead. */
  datatype Result<+T> = Success(value: T) | Failure(error: Error) {

    predicate IsFailure() {
      Failure?
    }

    function PropagateFailure<U>(): Result<U>
      requires Failure?
    {
      Failure(error)
    }

    function Extract(): T
      requires Success?
    {
      value
    }
  }
}
