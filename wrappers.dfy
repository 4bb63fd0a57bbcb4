/** The optional value used for every field the extraction may leave out. */
module Wrappers {

  datatype Option<+T> = None | Some(value: T)
}
