/** The optional value used throughout the model for `null`/`undefined` in the source. */
module Wrappers {
  datatype Option<+T> = None | Some(value: T)
}
