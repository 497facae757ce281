/** A value that may be absent: an optional property (`bank?`) or a `string | null` state. */
module Optional {
  datatype Option<T> = None | Some(value: T)
}
