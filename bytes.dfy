/** Conversions between bytes and the numbers 0..255. */
module Bytes {

  /** Converting a number below 256 to a byte loses nothing. */
  lemma ByteOfInt(n: int)
    requires 0 <= n < 256
    ensures (n as bv8) as int == n
  {
  }

  /** Converting a byte to a number and back gives the same byte. */
  lemma ByteOfIntOfByte(b: bv8)
    ensures (b as int) as bv8 == b
  {
  }

  /** Splitting `m * 256 + l` into quotient and remainder by 256 gives back `m` and `l`. */
  lemma DivMod256(m: int, l: int)
    requires 0 <= m < 256 && 0 <= l < 256
    ensures (m * 256 + l) / 256 == m && (m * 256 + l) % 256 == l
  {
  }
}
