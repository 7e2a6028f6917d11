/** Optional values and results, shared by all modules. */
module Wrappers {

  datatype Option<T> = None | Some(value: T)

  /** The source's error returns; the error's text is not modelled. */
  datatype Result<T> = Ok(value: T) | Err {
    predicate IsFailure() { Err? }
    function PropagateFailure<U>(): Result<U> requires Err? { Err }
    function Extract(): T requires Ok? { value }
  }
}
