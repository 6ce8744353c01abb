/** Optional values, used for results that may be absent and for raised exceptions. */
module Common {
  datatype Option<+T> = None | Some(value: T)
}
