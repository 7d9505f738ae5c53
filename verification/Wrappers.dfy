/** The optional column or value: SQL NULL, a missing map entry, JavaScript undefined. */
module Wrappers {

  datatype Option<+T> = None | Some(value: T)
}
