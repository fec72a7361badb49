/** Optional values, as the source's `None`-able fields and lookups. */
module Options {
  datatype Option<+T> = None | Some(value: T)
}
