/** Rust's `Option`, used for the optional state cells and the guarded results. */
module Wrappers {

  datatype Option<+T> = None | Some(value: T)
}
