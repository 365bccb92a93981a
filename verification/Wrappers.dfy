/** Optional values and the outcome of a request. */
module Wrappers {
  datatype Option<+T> = None | Some(value: T)

  /** The kinds of failure a request can end in. Constraint stands for every error that the
      database itself raises: a unique index, a CHECK constraint or a trigger. */
  datatype Error = BadRequest | NotFound | Conflict | Constraint

  datatype Result<+T> = Success(value: T) | Failure(error: Error) {
    predicate IsFailure() { Failure? }
    function PropagateFailure<U>(): Result<U> requires Failure? { Failure(error) }
    function Extract(): T requires Success? { value }
  }
}
