/** The optional value used wherever a C++ call of the analysis can throw. */
module Wrappers {

  datatype Option<+T> = None | Some(value: T)
}
