// The result of a lookup that may fail.
module Wrappers {

  datatype Option<T> = None | Some(value: T)
}
