/** The optional value used for replies that may fail to parse. */
module Wrappers {

  datatype Option<+T> = None | Some(value: T)
}
