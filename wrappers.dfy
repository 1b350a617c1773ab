/** The optional-value type used where the source has a value that may be missing or NaN. */
module Wrappers {
  datatype Option<T> = None | Some(value: T)
}
