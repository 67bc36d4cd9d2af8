/** Optional values, used where the application returns "nothing" (a parse
    that fails, a frame that produces no amplitude sample). */
module Wrappers {
  datatype Option<+T> = None | Some(value: T)
}
