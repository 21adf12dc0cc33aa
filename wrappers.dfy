/** The optional value used wherever the source may or may not produce one
    (a parse that fails, a dictionary key that is missing). */
module Wrappers {

  datatype Option<+T> = None | Some(value: T)
}
