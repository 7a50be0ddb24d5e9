/** A value that may be undefined or absent. */
module Wrappers {
  datatype Option<+T> = None | Some(value: T)
}
