/** The optional value used for `null`, `undefined` and `Infinity`. */
module Wrappers {
  datatype Option<T> = None | Some(value: T)
}
