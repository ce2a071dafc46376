/** The optional value used for JavaScript `undefined`/`null`, Python's
    missing keys and absent files. */
module Wrappers {

  datatype Option<T> = None | Some(value: T)
}
