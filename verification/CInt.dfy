/** C integer arithmetic: truncating division and the wrap-around of fixed widths. */
module CInt {

  /** C's `/` for a positive divisor: the quotient is truncated toward zero. */
  function TDiv(a: int, b: int): (q: int)
    requires b > 0
  {
    if a >= 0 then a / b else -((-a) / b)
  }

  function U8(x: int): (r: nat) { x % 0x100 }

  function U16(x: int): (r: nat) { x % 0x1_0000 }

  function U32(x: int): (r: nat) { x % 0x1_0000_0000 }

  /** The value a 16-bit signed variable holds after being assigned `x`. */
  function S16(x: int): (r: int) { (x + 0x8000) % 0x1_0000 - 0x8000 }

  /** The value a 32-bit signed variable holds after being assigned `x`. */
  function S32(x: int): (r: int) { (x + 0x8000_0000) % 0x1_0000_0000 - 0x8000_0000 }

  function Min(a: int, b: int): (r: int) { if a <= b then a else b }

  function Max(a: int, b: int): (r: int) { if a >= b then a else b }
}
