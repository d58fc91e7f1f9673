/** Small vocabulary shared by the whole model: nullable C pointers and the
    fixed-width integer conversions the C++ code performs implicitly. */
module Basics {

  /** A C/C++ pointer that may be null.  `Null` stands for the null pointer,
      `Ptr(v)` for a valid pointer to the value `v`. */
  datatype Nullable<+T> = Null | Ptr(value: T) {
    predicate IsNull() { Null? }
  }

  const TWO_TO_32: int := 0x1_0000_0000
  const TWO_TO_31: int := 0x8000_0000
  const TWO_TO_64: int := 0x1_0000_0000_0000_0000

  /** A C `unsigned int`. */
  type uint32 = x: int | 0 <= x < 0x1_0000_0000

  /** A C `size_t` on the 64-bit targets the library is built for. */
  newtype size_t = x: int | 0 <= x < 0x1_0000_0000_0000_0000

  /** Range of a C `int` (32-bit two's complement). */
  predicate IsInt32(x: int) {
    -TWO_TO_31 <= x < TWO_TO_31
  }

  /** The value a conversion `int(n)` produces for an unsigned `n`: the low
      32 bits read as a two's-complement number. */
  function ToInt32(n: nat): (r: int)
    ensures IsInt32(r)
    ensures r % TWO_TO_32 == n % TWO_TO_32
    ensures n < TWO_TO_31 ==> r == n
  {
    var low := n % TWO_TO_32;
    if low < TWO_TO_31 then low else low - TWO_TO_32
  }
}
