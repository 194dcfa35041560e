/** A value that may be absent: in this model, `None` stands for a NULL pointer. */
module Options {

  datatype Option<+T> = None | Some(value: T)
}
