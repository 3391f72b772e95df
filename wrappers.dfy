/** Rust's `Option`, as the node layer uses it for keys, namespaces and scope associations. */
module Wrappers {

  datatype Option<+T> = None | Some(value: T)
}
