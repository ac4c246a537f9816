/** The optional value used across the model: a Go nil pointer or an unset choice. */
module Wrappers {
  datatype Option<+T> = None | Some(value: T)
}
