/** Optional values: a JavaScript property that may be missing (`undefined`). */
module Wrappers {

  datatype Option<+T> = None | Some(value: T)
}
