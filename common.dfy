/** Small helper types shared by the modules of the model. */
module Common {

  /** A value that may be absent: a nullable field or an optional-chained read. */
  datatype Option<+T> = None | Some(value: T)

  /** A positive integer: sample rates. */
  type pos = x: int | x >= 1 witness 1
}
