/** The optional value used throughout the model (a nullable column, an absent key). */
module Wrappers {
  datatype Option<+T> = None | Some(value: T)
}
