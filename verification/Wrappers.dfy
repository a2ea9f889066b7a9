/** The optional value used throughout the model for `undefined` and `null`. */
module Wrappers {
  datatype Option<+T> = None | Some(value: T)
}
