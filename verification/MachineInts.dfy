/** The fixed-width integers of the program, and its `as` casts between them. */
module MachineInts {
  newtype byte = x: int | 0 <= x < 0x100

  type u16 = x: int | 0 <= x < 0x1_0000
  type u32 = x: int | 0 <= x < 0x1_0000_0000
  type u64 = x: int | 0 <= x < 0x1_0000_0000_0000_0000
  type i8 = x: int | -0x80 <= x < 0x80
  type i16 = x: int | -0x8000 <= x < 0x8000
  type i32 = x: int | -0x8000_0000 <= x < 0x8000_0000

  /** `x as i16`: keeps the low sixteen bits. */
  function AsI16(x: int): (r: i16)
    ensures r == x <==> -0x8000 <= x < 0x8000
  {
    (x + 0x8000) % 0x1_0000 - 0x8000
  }

  /** `x as i32`: keeps the low thirty-two bits. */
  function AsI32(x: int): (r: i32)
    ensures r == x <==> -0x8000_0000 <= x < 0x8000_0000
  {
    (x + 0x8000_0000) % 0x1_0000_0000 - 0x8000_0000
  }

  /** Signed division that rounds toward zero. */
  function TruncDiv(a: int, b: int): int
    requires b > 0
  {
    if a >= 0 then a / b else -((-a) / b)
  }
}
