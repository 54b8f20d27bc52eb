/** The optional-value type used for attributes that may be missing and steps that may fail. */
module Wrappers {
  datatype Option<+T> = None | Some(value: T)
}
