/** An optional value: a nullable column or a nullable argument. */
module Wrappers {
  datatype Option<+T> = None | Some(value: T)
}
