/** The Option type: a value that may be missing. */
module Wrappers {

  /** A value that may be missing: stands for a C# reference that may be null. */
  datatype Option<+T> = None | Some(value: T)
}
