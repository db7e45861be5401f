/** Machine integers, identifiers and the two failure types every other module uses. */
module Basics {

  datatype Option<+T> = None | Some(value: T)

  datatype Result<+T, +E> = Ok(value: T) | Err(error: E)

  const I64_MIN: int := -0x8000_0000_0000_0000
  const I64_MAX: int := 0x7FFF_FFFF_FFFF_FFFF

  type I64 = x: int | I64_MIN <= x <= I64_MAX
  type I32 = x: int | -0x8000_0000 <= x <= 0x7FFF_FFFF

  /** 128-bit identifiers. Two random draws may collide: nothing here says otherwise. */
  newtype Uuid = n: int | 0 <= n < 0x1_0000_0000_0000_0000_0000_0000_0000_0000

  /** Instants in seconds since 1970. Clocks are arbitrary and need not be monotonic. */
  type Time = int
}
