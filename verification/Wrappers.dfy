/** Values that may be missing, and results of steps that may raise. */
module Wrappers {

  datatype Option<+T> = None | Some(value: T)

  datatype Outcome<+T> = Done(value: T) | Failure
}
