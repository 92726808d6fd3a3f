/** An optional value: the result of a parse that can fail or of a table lookup that can miss. */
module Wrappers {

  datatype Option<+T> = None | Some(value: T)
}
