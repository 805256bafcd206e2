/** A value that may be absent: the source's nil pointers and second results. */
module Wrappers {
  datatype Option<+T> = None | Some(value: T)
}
