/** The optional value used wherever the source returns a possibly-null pointer. */
module Wrappers {
  datatype Option<+T> = None | Some(value: T)
}
