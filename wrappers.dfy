/** An optional value: a field that may be missing, a lookup that may find
    nothing. */
module Wrappers {
  datatype Option<T> = None | Some(value: T)
}
