/** An optional value: Java's nullable references and "absent" outcomes. */
module Options {
  datatype Option<+T> = None | Some(value: T)
}
