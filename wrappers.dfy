/** Optional values: the model's stand-in for `null`/`undefined` in the front-end. */
module Wrappers {
  datatype Option<+T> = None | Some(value: T)
}
