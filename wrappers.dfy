/** An optional value: JavaScript's `undefined`/`null` where the source has one. */
module Wrappers {

  datatype Option<+T> = None | Some(value: T)
}
