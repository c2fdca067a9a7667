/** The optional value used wherever the C code uses NULL or "nothing written". */
module Wrappers {
  datatype Option<+T> = None | Some(value: T)
}
