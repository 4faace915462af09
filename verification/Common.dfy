/** Small types shared by every component of the model. */
module Common {

  datatype Option<+T> = None | Some(value: T)

  datatype Result<+T, +E> = Ok(value: T) | Err(error: E)

  type Byte = x: int | 0 <= x < 256

  type Bytes = seq<Byte>

  const TWO_64: int := 0x1_0000_0000_0000_0000

  /** A 64-bit unsigned integer. */
  type U64 = x: int | 0 <= x < TWO_64

  const U64_MAX: U64 := TWO_64 - 1

  function Min(a: int, b: int): (m: int) {
    if a <= b then a else b
  }

  function Max(a: int, b: int): (m: int) {
    if a <= b then b else a
  }

  /** `UInt64.saturatingAdd`: the sum, or the largest value when it does not fit. */
  function SaturatingAdd(a: U64, b: U64): (r: U64) {
    if a + b < TWO_64 then a + b else U64_MAX
  }
}
