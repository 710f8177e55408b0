/** Small value types shared by every module of the model. */
module Prelude {

  /** Rust's `Option<T>`. */
  datatype Option<+T> = None | Some(value: T)

  /** Rust's `i32`: the width of colours and of media dimensions. */
  type Int32 = x: int | -0x8000_0000 <= x < 0x8000_0000
}
