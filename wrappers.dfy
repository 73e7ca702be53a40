/** The optional value used wherever the game keeps a nullable field or a
    lookup can come back `undefined`. */
module Wrappers {
  datatype Option<+T> = None | Some(value: T)
}
