/** Optional values, used for Python's `None`-or-value globals. */
module Wrappers {

  datatype Option<+T> = None | Some(value: T)
}
