/** An optional value: Go's `(value, ok)` pairs and nil pointers, Python's `None`. */
module Options {
  datatype Option<+T> = None | Some(value: T)
}
