/** The optional value used where the animation looks something up that may be missing. */
module Wrappers {
  datatype Option<+T> = None | Some(value: T)
}
