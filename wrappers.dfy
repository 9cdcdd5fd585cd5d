/** The optional value used for "a sample duration may or may not be set". */
module Wrappers {

  datatype Option<+T> = None | Some(value: T)
}
