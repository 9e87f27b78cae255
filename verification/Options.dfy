/** Optional values. A zero time, a nil pointer and an absent map entry of the
    source are all written as None. */
module Options {
  datatype Option<+T> = None | Some(value: T)
}
