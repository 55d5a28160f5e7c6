/** Optional values: TypeScript's `null` in the records this model handles. */
module Wrappers {

  datatype Option<+T> = None | Some(value: T)
}
