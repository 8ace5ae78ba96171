/** The optional value used wherever the original program may hold a null reference. */
module Wrappers {

  datatype Option<+T> = None | Some(value: T)

}
