/** The optional value used wherever the source may fail or hold nothing. */
module Wrappers {

  datatype Option<+T> = None | Some(value: T)
}
