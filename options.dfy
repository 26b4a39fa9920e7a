/** A value that may be absent: JavaScript's `null` for grapple points and the local id. */
module Options {
  datatype Option<T> = None | Some(value: T)
}
