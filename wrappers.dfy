/** The optional value used by the reply slot and by the frame reader. */
module Wrappers {

  datatype Option<+T> = None | Some(value: T)
}
