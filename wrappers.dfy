/** Optional values; `None` stands for a result the C code leaves undefined. */
module Wrappers {
  datatype Option<+T> = None | Some(value: T)
}
