/** The optional-value type used across the model (for Go's nil pointers and "found" flags). */
module Wrappers {
  datatype Option<+T> = None | Some(value: T)
}
