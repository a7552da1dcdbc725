/** Small helper datatypes shared by the model. */
module Wrappers {

  /** A value that may be absent, standing for a nullable pointer of the source. */
  datatype Option<+T> = None | Some(value: T)
}
