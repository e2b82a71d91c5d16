/** An optional value, used where the source returns None or raises. */
module Wrappers {
  datatype Option<+T> = None | Some(value: T)
}
