module Common {

  /** A thread of the program, named by a number. */
  type Thread = nat

  datatype Option<+T> = None | Some(value: T)
}
