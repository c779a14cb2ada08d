/** Optional values: `None` stands for JavaScript's `null` result. */
module Wrappers {

  datatype Option<+T> = None | Some(value: T)
}
