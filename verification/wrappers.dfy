/** Small failure-carrying datatypes shared by the other modules. */
module Wrappers {

  /** A value that may be absent: JavaScript's `undefined` where a lookup finds nothing. */
  datatype Option<+T> = None | Some(value: T)

  /** The verdict of a validation step: `Fail` stands for the process exiting with a diagnostic. */
  datatype Outcome<+E> = Pass | Fail(error: E)
}
