/** Rust's `Option`, used for environment variables that may be unset and for
    results that may be absent. */
module Wrappers {
  datatype Option<+T> = None | Some(value: T)
}
