/** An optional value, for JavaScript's `undefined`. */
module Wrappers {
  datatype Option<T> = None | Some(value: T)
}
