/** The nullable values of the tracker (a missing position, a cleared watch handle). */
module Wrappers {
  datatype Option<+T> = None | Some(value: T)
}
