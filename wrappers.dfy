/** The optional value used for hooks that may return nothing and for absent log identifiers. */
module Wrappers {
  datatype Option<+T> = None | Some(value: T)
}
