/** The one wrapper type every model shares. */
module Wrappers {
  datatype Option<+T> = None | Some(value: T)
}
