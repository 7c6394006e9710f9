/** The optional value used for nullable pointers and expired weak pointers. */
module Wrappers {

  datatype Option<+T> = None | Some(value: T)
}
