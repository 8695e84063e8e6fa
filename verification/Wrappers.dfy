/** The option type used wherever the source has a nullable column, pointer or map lookup. */
module Wrappers {
  datatype Option<+T> = None | Some(value: T)
}
