/** The optional value returned by the library calls the configuration relies on. */
module Wrappers {

  datatype Option<+T> = None | Some(value: T)
}
