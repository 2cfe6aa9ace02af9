/** Fixed-width integers of the C++ source and the conversions between them.

    Dafny integers are unbounded, so every place where the source relies on
    `uint32_t` wrap-around or on a `static_cast<int32_t>` of a wider value uses
    the functions below explicitly.
 */
module Common {

  const UINT32_LIMIT: int := 0x1_0000_0000
  const UINT32_MAX: int := 0xFFFF_FFFF
  const INT32_MAX: int := 0x7FFF_FFFF

  newtype uint32 = x: int | 0 <= x < 0x1_0000_0000
  newtype int32 = x: int | -0x8000_0000 <= x < 0x8000_0000
  newtype uint64 = x: int | 0 <= x < 0x1_0000_0000_0000_0000

  datatype Option<T> = None | Some(value: T)

  /** Reduction of an integer modulo 2^32: what a `uint32_t` holds after the
      arithmetic that produced `x`. */
  function Uint32(x: int): (r: uint32)
    ensures 0 <= x < UINT32_LIMIT ==> r as int == x
    ensures (r as int - x) % UINT32_LIMIT == 0
  {
    (x % UINT32_LIMIT) as uint32
  }

  /** Two's complement reinterpretation of the low 32 bits of `x`:
      `static_cast<int32_t>` applied to an unsigned value. */
  function Int32(x: int): (r: int32)
    ensures 0 <= x <= INT32_MAX ==> r as int == x
    ensures 0 <= x ==> r as int <= x
    ensures (r as int - x) % UINT32_LIMIT == 0
  {
    var m := x % UINT32_LIMIT;
    if m <= INT32_MAX then m as int32 else (m - UINT32_LIMIT) as int32
  }

  /** `x++` on a `uint32_t`: the successor, wrapping from 0xFFFFFFFF to 0. */
  function Next(x: uint32): (r: uint32)
    ensures x as int < UINT32_MAX ==> r as int == x as int + 1
    ensures x as int == UINT32_MAX ==> r == 0
  {
    Uint32(x as int + 1)
  }
}
