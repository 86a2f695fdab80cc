/** Failure-compatible wrappers used by the model: an optional value, a result
    that carries either a value or an error, and a pass/fail outcome. */
module Common {

  datatype Option<T> = None | Some(value: T)

  datatype Result<T, E> = Success(value: T) | Failure(error: E)

  datatype Outcome<E> = Pass | Fail(error: E)
}
