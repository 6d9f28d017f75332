/** Optional values: a moving average that pandas leaves as NaN is `None` here. */
module Wrappers {
  datatype Option<+T> = None | Some(value: T)
}
