/** Values that may be absent: the source's `undefined`, `null` and missing map entries. */
module Options {
  datatype Option<T> = None | Some(value: T)
}
