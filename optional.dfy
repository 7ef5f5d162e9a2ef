/** An optional value: a field of the definition that may be missing. */
module Optional {

  datatype Option<+T> = None | Some(value: T)
}
