/** Optional values: JavaScript's `null` / `undefined` become `None`. */
module Wrappers {

  datatype Option<+T> = None | Some(value: T)
}
