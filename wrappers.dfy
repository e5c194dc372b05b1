/** A value that JavaScript leaves `undefined` or `null` until it is set. */
module Wrappers {
  datatype Option<+T> = None | Some(value: T)
}
