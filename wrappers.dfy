/** A value that may be absent: TypeScript's `T | null` in the models. */
module Wrappers {

  datatype Option<+T> = None | Some(value: T)
}
