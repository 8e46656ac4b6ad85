/** Shared helper datatypes. */
module Wrappers {

  /** A value that may be absent: JavaScript's `undefined` next to a present value. */
  datatype Option<+T> = None | Some(value: T)
}
