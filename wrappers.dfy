/** The usual optional value: `None` stands for JavaScript's `undefined` (a missing
    body field, an unset environment variable, a missing storage key). */
module Wrappers {

  datatype Option<+T> = None | Some(value: T)

}
