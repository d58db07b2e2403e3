/** The optional value that models a lookup which may fail. */
module Wrappers {
  datatype Option<T> = None | Some(value: T)
}
