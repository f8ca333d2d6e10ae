/** Shared vocabulary of the whole project. */
module Common {

  datatype Option<+T> = None | Some(value: T)
}
