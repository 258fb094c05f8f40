/** Values that may be absent: Go's `nil` pointers and failed lookups. */
module Options {
  datatype Option<+T> = None | Some(value: T)
}
