/** The optional values that the Swift code writes as `T?`. */
module Options {

  datatype Option<+T> = None | Some(value: T)
}
