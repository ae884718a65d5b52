// The optional value shared by the scanner and the configuration checkers.
module Wrappers {

  datatype Option<T> = None | Some(value: T)
}
