/** The result of a step that the program may leave by an exception. */
module Outcomes {

  datatype Outcome<+T, +F> = Done(value: T) | Thrown(fault: F) {
    predicate IsFailure() { Thrown? }
    function PropagateFailure<U>(): Outcome<U, F> requires Thrown? { Thrown(fault) }
    function Extract(): T requires Done? { value }
  }
}
