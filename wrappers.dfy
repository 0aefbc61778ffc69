/** The optional value used for JavaScript's `undefined`/`null` fields and for searches that may find nothing. */
module Wrappers {

  datatype Option<+T> = None | Some(value: T)
}
