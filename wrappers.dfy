/** JavaScript's missing values: a nullable JSON field or an absent object property. */
module Wrappers {
  datatype Option<+T> = None | Some(value: T)
}
