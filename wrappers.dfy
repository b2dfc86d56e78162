/** An optional value, standing for a buffer pointer that may be null. */
module Wrappers {
  datatype Option<+T> = None | Some(value: T)
}
