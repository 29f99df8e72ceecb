/** The optional value used for cells that are missing or that fail to parse. */
module Wrappers {

  datatype Option<+T> = None | Some(value: T)
}
