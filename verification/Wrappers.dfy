/** The optional value used throughout the project for nullable pointers and empty slots. */
module Wrappers {
  datatype Option<+T> = None | Some(value: T)
}
