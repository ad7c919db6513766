/** Optional values: a session key that may be absent, an exception that may have been raised. */
module Wrappers {

  datatype Option<T> = None | Some(value: T)
}
