/** The optional value used for "no result" signals (Python's None). */
module Wrappers {

  datatype Option<+T> = None | Some(value: T)
}
