/// Rust's `Option`, used for resources that may be absent (the emulator, the
/// game screen's frame buffer).
module Wrappers {
  datatype Option<+T> = None | Some(value: T)
}
