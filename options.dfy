/** The optional value used wherever the Python code returns a value or None. */
module Options {

  datatype Option<+T> = None | Some(value: T)
}
