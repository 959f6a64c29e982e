/** The optional value used wherever a Go lookup may miss. */
module Wrappers {

  datatype Option<+T> = None | Some(value: T)
}
