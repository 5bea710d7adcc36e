/** Optional values, used for React state that starts out `undefined`. */
module Wrappers {
  datatype Option<+T> = None | Some(value: T)
}
