/** The usual optional value, used for the result of the array `find` calls. */
module Optional {
  datatype Option<+T> = None | Some(value: T)
}
