/** The optional value returned by the parsers that serve as the
    renderers' inverses. */
module Wrappers {

  datatype Option<T> = None | Some(value: T)
}
