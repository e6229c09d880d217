/** The optional value used across the model in place of Java's null and Optional. */
module Wrappers {
  datatype Option<+T> = None | Some(value: T)
}
