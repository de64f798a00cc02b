/** The optional value used for SQL NULL, Python None and "no result". */
module Wrappers {

  datatype Option<+T> = None | Some(value: T)
}
