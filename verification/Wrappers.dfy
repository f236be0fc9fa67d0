/** Small result types shared by the model. */
module Wrappers {

  datatype Option<+T> = None | Some(value: T)

  /** What a call that may fail reports; the source's `Result`. */
  datatype Result<+T, +E> = Ok(value: T) | Err(error: E)

  /**
   * What is left of an effectful call when the process can be killed at any of its effects.
   * `:-` on an Attempt abandons the caller as well, which is what a crash does to a call stack.
   */
  datatype Attempt<+T> = Done(value: T) | Killed {

    predicate IsFailure() {
      Killed?
    }

    function PropagateFailure<U>(): Attempt<U>
      requires Killed?
    {
      Killed
    }

    function Extract(): T
      requires Done?
    {
      value
    }
  }
}
