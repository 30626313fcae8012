/** Failure-carrying values shared by every component of the renderer model.

    The renderer reports problems in three ways, and the model keeps them apart:
    - a thrown `std::runtime_error` becomes `Exception(message)`, with the
      source's own message text;
    - a failing `assert` on data read from a scene becomes
      `AssertionFailure(message)` (the program aborts in a debug build);
    - a write past the end of a fixed-size array, which C++ does not check,
      becomes `OutOfBoundsWrite(index)`.
*/
module Wrappers {

  datatype Option<+T> = None | Some(value: T) {
    function GetOr(default: T): T {
      match this
      case Some(v) => v
      case None => default
    }
  }

  datatype Failure =
    | Exception(message: string)
    | AssertionFailure(message: string)
    | OutOfBoundsWrite(index: nat)

  datatype Result<+T> = Ok(value: T) | Err(error: Failure) {
    predicate IsFailure() { Err? }

    function PropagateFailure<U>(): Result<U>
      requires Err?
    {
      Err(error)
    }

    function Extract(): T
      requires Ok?
    {
      value
    }
  }

  /** The outcome of an operation that returns nothing (a `void` function that may throw). */
  datatype Outcome = Pass | Fail(error: Failure) {
    predicate IsFailure() { Fail? }

    function PropagateFailure(): Outcome
      requires Fail?
    {
      this
    }
  }
}
