/** The optional value that the external scanner hands over. */
module Wrappers {

  datatype Option<+T> = None | Some(value: T)
}
