/** A value that may be absent: the model of C#'s nullable reference `T?`. */
module Optional {

  datatype Option<+T> = None | Some(value: T)
}
