// Types shared by several components.
module Common {
  datatype Option<+T> = None | Some(value: T)
  {
    function GetOr(default: T): T {
      if Some? then value else default
    }
  }

  type Byte = x: int | 0 <= x < 0x100

  const U16_LIMIT := 0x1_0000
  const U32_LIMIT := 0x1_0000_0000

  type U16 = x: int | 0 <= x < U16_LIMIT
  type U32 = x: int | 0 <= x < U32_LIMIT
  type I32 = x: int | -0x8000_0000 <= x < 0x8000_0000

  // Casts of a length, in release arithmetic.
  function AsU32(n: nat): U32 {
    if n < U32_LIMIT then n else n % U32_LIMIT
  }

  function AsU16(n: nat): U16 {
    if n < U16_LIMIT then n else n % U16_LIMIT
  }
}
