/** The optional value the grid stores for "no instance handle yet" and the
    accessors return for "no block at these coordinates". */
module Wrappers {

  datatype Option<+T> = None | Some(value: T)
}
