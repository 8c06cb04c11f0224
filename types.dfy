/** Machine integer widths and the small wrappers the rest of the model uses. */
module Types {
  /** Rust `u8`: core ids, grid dimensions, router ids. */
  newtype u8 = x: int | 0 <= x < 0x100
  /** Rust `u16`: task ids. */
  newtype u16 = x: int | 0 <= x < 0x1_0000
  /** Rust `i16`: the id-sequence tracker of the validation loop. */
  newtype i16 = x: int | -0x8000 <= x < 0x8000
  /** Rust `usize` on a 64-bit target: the expected core count. */
  newtype usize = x: int | 0 <= x < 0x1_0000_0000_0000_0000

  datatype Option<T> = None | Some(value: T)

  datatype Result<R, E> = Success(value: R) | Failure(error: E)

  /** A free-form XML attribute bag: attribute name to its text value. */
  type Attributes = map<string, string>
}
