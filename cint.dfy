/// The integer widths of the ESP32 toolchain, written out on Dafny's unbounded
/// integers: `unsigned long` is 32 bits wide and wraps modulo 2^32, `long` and
/// `int` are 32-bit two's complement.
module CInt {
  const TWO_32: int := 0x1_0000_0000
  const TWO_31: int := 0x8000_0000

  /// Values of an `unsigned long` (the type of `millis()` and of the timing globals).
  type u32 = x: int | 0 <= x < TWO_32

  /// Values of a `long` or an `int`.
  type i32 = x: int | -TWO_31 <= x < TWO_31

  /// C conversion of an integer value to `unsigned long`: reduction modulo 2^32
  /// (Dafny's `%` is Euclidean, so negative values land in range as in C).
  function ToU32(x: int): (r: u32)
    ensures (r - x) % TWO_32 == 0
    ensures 0 <= x < TWO_32 ==> r == x
    ensures -TWO_32 <= x < 0 ==> r == x + TWO_32
  {
    x % TWO_32
  }

  /// Unsigned subtraction `a - b` on `unsigned long`.
  function Sub(a: u32, b: u32): (r: u32)
    ensures b <= a ==> r == a - b
    ensures a < b ==> r == TWO_32 + a - b
  {
    ToU32(a - b)
  }

  /// Unsigned addition `a + b` on `unsigned long`.
  function Add(a: u32, b: u32): (r: u32)
    ensures a + b < TWO_32 ==> r == a + b
    ensures TWO_32 <= a + b ==> r == a + b - TWO_32
  {
    ToU32(a + b)
  }

  /// The cast `(long)x` of an `unsigned long`: the same 32 bits read as two's complement.
  function ToI32(x: u32): (r: i32)
    ensures ToU32(r) == x
    ensures x < TWO_31 ==> r == x
    ensures TWO_31 <= x ==> r < 0
  {
    if x < TWO_31 then x else x - TWO_32
  }

  /// The value a `long` holds after arithmetic whose exact result is `x`. Signed
  /// overflow is undefined in C++; the model assumes the two's-complement wrap
  /// modulo 2^32 that the ESP32 toolchain produces.
  function WrapI32(x: int): (r: i32)
    ensures (r - x) % TWO_32 == 0
    ensures -TWO_31 <= x < TWO_31 ==> r == x
  {
    ToI32(ToU32(x))
  }

  /// `Sub` undoes `Add`, and `Add` undoes `Sub`: unsigned arithmetic is a group.
  lemma AddSubInverse(a: u32, b: u32)
    ensures Sub(Add(a, b), b) == a
    ensures Add(Sub(a, b), b) == a
  {
  }
}
