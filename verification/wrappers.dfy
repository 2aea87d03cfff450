/** Small failure-compatible wrappers shared by the model. */
module Wrappers {

  /** A value that may be absent (JavaScript's `undefined`). */
  datatype Option<+T> = None | Some(value: T)

  /**
   * The outcome of an operation that may raise `IllegalSateError`, or a
   * `TypeError` from reading a property of `undefined`.
   */
  datatype Outcome = Pass | IllegalState(message: string) | TypeError
}
