/** The optional value used for "no such entry" and for a parameter that may be None. */
module Wrappers {

  datatype Option<+T> = None | Some(value: T)
}
