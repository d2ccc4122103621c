/** The optional-value type both controllers use (a nullable field or argument of the source). */
module Wrappers {
  datatype Option<+T> = None | Some(value: T)
}
