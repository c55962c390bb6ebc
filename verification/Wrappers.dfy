/** An optional value: the outcome of an operation whose source throws std::length_error. */
module Wrappers {
  datatype Option<+T> = None | Some(value: T)
}
