/** The optional values that the service passes around (Rust's `Option`). */
module Wrappers {

  datatype Option<+T> = None | Some(value: T)
}
