/** An optional value: `None` stands for a value that is not there (JavaScript's `null`/`undefined`). */
module Optional {
  datatype Option<+T> = None | Some(value: T)
}
