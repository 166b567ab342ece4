/** A value that may be absent: the model's stand-in for a nullable .NET reference. */
module Wrappers {

  datatype Option<+T> = None | Some(value: T)
}
