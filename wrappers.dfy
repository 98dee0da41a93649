/** Optional values, for Python's `Optional[...]` arguments and `None` results. */
module Wrappers {

  datatype Option<T> = None | Some(value: T)
}
