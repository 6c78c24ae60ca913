/** Optional values: JavaScript's `null`/`undefined` for an absent argument or key. */
module Wrappers {

  datatype Option<+T> = None | Some(value: T)
}
