/** Small failure-carrying datatypes shared by the other modules. */
module Wrappers {

  /** An optional value: JavaScript's `undefined`/`null` versus a present value. */
  datatype Option<+T> = None | Some(value: T)

  /** The outcome of an operation that either completes or throws with a message. */
  datatype Outcome<+E> = Pass | Fail(error: E)
}
