/** Fixed-width C integer types used by the firmware's structs, and the
    conversions C++ performs when a wider value is stored into them. */
module CTypes {

  newtype Uint8 = x: int | 0 <= x < 0x100
  newtype Int8 = x: int | -0x80 <= x < 0x80
  newtype Uint16 = x: int | 0 <= x < 0x1_0000
  newtype Int16 = x: int | -0x8000 <= x < 0x8000
  newtype Uint32 = x: int | 0 <= x < 0x1_0000_0000

  datatype Option<+T> = None | Some(value: T)

  /** Conversion of any integer to `uint16_t`: the value modulo 2^16. */
  function ToUint16(x: int): (r: Uint16)
    ensures (r as int - x) % 0x1_0000 == 0
    ensures 0 <= x < 0x1_0000 ==> r as int == x
  {
    (x % 0x1_0000) as Uint16
  }

  /** Narrowing of any integer to `int16_t`: two's-complement wrap-around,
      i.e. the unique value in -2^15 .. 2^15-1 congruent to x modulo 2^16. */
  function ToInt16(x: int): (r: Int16)
    ensures (r as int - x) % 0x1_0000 == 0
    ensures -0x8000 <= x < 0x8000 ==> r as int == x
  {
    ((x + 0x8000) % 0x1_0000 - 0x8000) as Int16
  }

  /** Narrowing is determined by the residue modulo 2^16: values that differ
      by a multiple of 2^16 narrow to the same int16. */
  lemma ToInt16Periodic(x: int, k: int)
    ensures ToInt16(x + k * 0x1_0000) == ToInt16(x)
  {
    assert (x + k * 0x1_0000 + 0x8000) % 0x1_0000 == (x + 0x8000) % 0x1_0000;
  }
}
