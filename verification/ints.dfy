/** Fixed-width unsigned integers of the engine (uint8_t, uint32_t) and their wrap-around. */
module Ints {
  const TWO_TO_THE_32: int := 0x1_0000_0000

  /** An unsigned char / uint8_t value. */
  type u8 = x: int | 0 <= x < 0x100

  /** A uint32_t value. */
  type u32 = x: int | 0 <= x < 0x1_0000_0000
  /** An int32_t value. */
  type i32 = x: int | -0x8000_0000 <= x < 0x8000_0000

  /** The uint32_t that C++ arithmetic leaves when the exact result is `x`. */
  function Wrap32(x: int): (r: u32)
    ensures 0 <= x < TWO_TO_THE_32 ==> r == x
  {
    x % TWO_TO_THE_32
  }

  /** Wrapping once or after every step of a sum gives the same uint32_t. */
  lemma WrapAdd(a: int, b: int)
    ensures Wrap32(Wrap32(a) + b) == Wrap32(a + b)
  {
  }

}
