/** The optional value used for parse results and for an export that may fail. */
module Wrappers {

  datatype Option<+T> = None | Some(value: T)
}
