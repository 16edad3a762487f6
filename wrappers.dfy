/** Stock optional-value datatype shared by the parsing partners of the model. */
module Wrappers {

  datatype Option<+T> = None | Some(value: T)
}
