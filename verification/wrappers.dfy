/** Optional values: the component's `null`/`undefined` fields. */
module Wrappers {

  datatype Option<+T> = None | Some(value: T)
}
