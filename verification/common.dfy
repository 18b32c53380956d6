// Shared by every other module.
module Common {

  datatype Option<+T> = None | Some(value: T)
}
