/** The optional value used for empty spreadsheet cells and absent results. */
module Wrappers {

  datatype Option<+T> = None | Some(value: T)
}
