/** Small value wrappers shared by the other modules. */
module Wrappers {

  /** A JavaScript value that is either present (truthy) or absent (null, undefined or another falsy value). */
  datatype Option<+T> = None | Some(value: T)

  /** How a promise (or a synchronous call that may throw) settles. */
  datatype Outcome<+T, +E> = Fulfilled(value: T) | Rejected(reason: E)
}
