/** The optional value used for every field of a search request that a caller may leave out. */
module Wrappers {

  datatype Option<+T> = None | Some(value: T)
}
