/** Python's `None`-or-value return, as an explicit option type. */
module Wrappers {
  datatype Option<T> = None | Some(value: T)
}
