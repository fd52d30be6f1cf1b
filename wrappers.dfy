/** `undefined`-or-a-value, as the storage lookups and optional payload fields return it. */
module Wrappers {
  datatype Option<T> = None | Some(value: T)
}
