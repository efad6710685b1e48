/** Optional values: JavaScript's `undefined` for an omitted argument or option. */
module Wrappers {

  datatype Option<+T> = None | Some(value: T)
}
