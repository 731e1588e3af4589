/** An optional value; `None` stands for a null reference. */
module Optional {
  datatype Option<+T> = None | Some(value: T)
}
