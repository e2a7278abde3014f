/** The optional value used wherever the source has a nilable result (an `error`, a pointer). */
module Wrappers {

  datatype Option<+T> = None | Some(value: T)
}
