/** Bytes of the capture file and the C arithmetic the decoder relies on. */
module Bytes {

  /** One byte of the file, as an unsigned value. */
  type byte = b: int | 0 <= b < 256

  /** Unsigned 16-bit little-endian value, as an `unsigned short` field reads it. */
  function U16(lo: byte, hi: byte): (n: nat)
    ensures n < 0x1_0000
    ensures n % 256 == lo && n / 256 == hi
  {
    lo + 256 * hi
  }

  /** Unsigned 32-bit little-endian value, as an `unsigned int` field reads it. */
  function U32(b0: byte, b1: byte, b2: byte, b3: byte): (n: nat)
    ensures n < 0x1_0000_0000
  {
    U16(b0, b1) + 0x1_0000 * U16(b2, b3)
  }

  /** The two bytes a 16-bit field is stored as. */
  function U16Bytes(n: nat): (s: seq<byte>)
    requires n < 0x1_0000
    ensures |s| == 2 && U16(s[0], s[1]) == n
  {
    [n % 256, n / 256]
  }

  /** The four bytes a 32-bit field is stored as. */
  function U32Bytes(n: nat): (s: seq<byte>)
    requires n < 0x1_0000_0000
    ensures |s| == 4 && U32(s[0], s[1], s[2], s[3]) == n
  {
    U16Bytes(n % 0x1_0000) + U16Bytes(n / 0x1_0000)
  }

  /** The value of a plain `char` byte on a platform where `char` is signed. */
  function SignedChar(b: byte): (c: int)
    ensures -128 <= c < 128
    ensures c == b || c == b - 256
  {
    if b < 0x80 then b else b - 256
  }

  /** C's `%` on `int`: the remainder takes the sign of the dividend. */
  function CRem(a: int, m: int): (r: int)
    requires m > 0
    ensures a >= 0 ==> r == a % m
    ensures a < 0 ==> -m < r <= 0
    ensures a - r == (if a >= 0 then a / m else -((-a) / m)) * m
  {
    if a >= 0 then a % m else -((-a) % m)
  }

  /** C's conversion of a `double` to `int`: truncation toward zero. */
  function TruncToInt(x: real): (n: int)
    ensures x >= 0.0 ==> n as real <= x < n as real + 1.0
    ensures x < 0.0 ==> n as real - 1.0 < x <= n as real
  {
    if x >= 0.0 then x.Floor else -((-x).Floor)
  }
}
