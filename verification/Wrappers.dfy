module Wrappers {

  datatype Option<+T> = None | Some(value: T)

  /** The answer of a call that may fail. */
  datatype Reply<+T> = Ok(value: T) | Failed {
    predicate IsFailure() { Failed? }
    function PropagateFailure<U>(): Reply<U> requires Failed? { Failed }
    function Extract(): T requires Ok? { value }
  }
}
