/** Optional values: a session or a user that may be absent. */
module Wrappers {

  /** A value that may be missing; `None` stands for the source's `null`/`undefined`. */
  datatype Option<+T> = None | Some(value: T)
}
