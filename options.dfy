/** Optional values: Java's nullable references in the modelled code. */
module Options {
  datatype Option<+T> = None | Some(value: T)
}
