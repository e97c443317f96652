/** The absent-or-present value the engine uses for Python's `None`. */
module Optional {

  datatype Option<+T> = None | Some(value: T)

}
