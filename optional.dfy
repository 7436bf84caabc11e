/** The optional value used wherever the service stores or returns `null`. */
module Optional {
  datatype Option<+T> = None | Some(value: T)
}
