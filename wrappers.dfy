/** Small helper datatypes shared by the other modules. */
module Wrappers {

  /** A value that may be absent (JavaScript's `undefined` for an optional slot). */
  datatype Option<+T> = None | Some(value: T)
}
