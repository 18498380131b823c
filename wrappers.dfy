/** The optional value that the emulator's `Option` and a failed table lookup
    return. */
module Wrappers {

  datatype Option<T> = None | Some(value: T)
}
