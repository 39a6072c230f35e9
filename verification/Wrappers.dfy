/** Failure-compatible results shared by every component. */
module Wrappers {

  datatype Option<+T> = None | Some(value: T)

  /** What a step of the loop did: it returned, or a panic unwound it. */
  datatype Outcome<+T> = Panicked | Returned(value: T) {
    predicate IsFailure() {
      Panicked?
    }

    function PropagateFailure<U>(): Outcome<U>
      requires Panicked?
    {
      Panicked
    }

    function Extract(): T
      requires Returned?
    {
      value
    }
  }
}
