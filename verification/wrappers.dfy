/** The two failure-carrying wrappers the derivation is written with. */
module Wrappers {

  /** A value that may be absent, as Rust's `Option`. */
  datatype Option<+T> = None | Some(value: T)

  /** The outcome of a fallible step, as `syn::Result`. */
  datatype Result<+T, +E> = Ok(value: T) | Err(error: E)
}
