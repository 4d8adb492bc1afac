/** The optional-value datatype used for the game's nullable references. */
module Wrappers {

  datatype Option<+T> = None | Some(value: T)
}
