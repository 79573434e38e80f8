/** The optional value used wherever the sources use `null` or "no such entry". */
module Wrappers {

  datatype Option<+T> = None | Some(value: T)
}
