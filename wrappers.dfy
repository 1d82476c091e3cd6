/** The optional value both halves of the model return where the source raises. */
module Wrappers {
  datatype Option<T> = None | Some(value: T)
}
