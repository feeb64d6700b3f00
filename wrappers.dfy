/** The optional value used for the stage table's missing buffers and for free machines. */
module Wrappers {

  datatype Option<+T> = None | Some(value: T)
}
