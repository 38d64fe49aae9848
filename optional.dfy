/** The optional value of the Python `X | None` annotations. */
module Optional {

  datatype Option<+T> = None | Some(value: T)
}
