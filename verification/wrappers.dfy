/** Optional values: the model of Python's `Optional[str]` (None or a value). */
module Wrappers {

  datatype Option<+T> = None | Some(value: T)
}
