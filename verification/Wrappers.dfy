/** Absent values and exceptions. */
module Wrappers {
  datatype Option<+T> = None | Some(value: T)

  /** What a call does: it raises an exception or returns a value. */
  datatype Outcome<+T> = Raised | Returned(value: T) {
    predicate IsFailure() {
      Raised?
    }

    function PropagateFailure<U>(): Outcome<U>
      requires Raised?
    {
      Raised
    }

    function Extract(): T
      requires Returned?
    {
      value
    }
  }
}
