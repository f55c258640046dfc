/** The optional value used by the solvers: Rust's `Option`. */
module Wrappers {

  datatype Option<+T> = None | Some(value: T)

}
