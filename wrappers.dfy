/** The optional value used where the programs work with something that may
    be missing: a reply that could not be obtained, a document a search did
    not return, a quotation a line does not hold. */
module Wrappers {
  datatype Option<T> = None | Some(value: T)
}
