/** A value that may be missing: Python's None, a failed lookup, or an exception that is raised. */
module Options {

  datatype Option<+T> = None | Some(value: T)
}
