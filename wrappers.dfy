/** The optional-value datatype used for the results of the handler's collaborators. */
module Wrappers {

  datatype Option<+T> = None | Some(value: T)
}
