/** An optional value: a parse that may fail, an exception that may escape. */
module Wrappers {

  datatype Option<T> = None | Some(value: T)
}
