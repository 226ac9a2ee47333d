/** The optional value returned where the source may find nothing. */
module Wrappers {
  datatype Option<+T> = None | Some(value: T)
}
