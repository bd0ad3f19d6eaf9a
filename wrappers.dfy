/** An optional value: JavaScript's `undefined` or `null` against a present one. */
module Wrappers {
  datatype Option<T> = None | Some(value: T)
}
