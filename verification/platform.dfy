/**
 The integer semantics of the sketch's target and the one Arduino helper it uses.

 The sketch drives the bus with DmxSimple, which runs on 8-bit AVR boards: there
 `int` is 16 bits wide and `long` / `unsigned long` are 32 bits wide. Dafny's
 integers are unbounded, so every conversion and wrap-around the sketch relies
 on is written out here as a function on `int`.
 */
module Platform {

  const TwoTo16: int := 0x1_0000
  const TwoTo32: int := 0x1_0000_0000

  /** C++ `int` on AVR. */
  type Int16 = x: int | -0x8000 <= x < 0x8000
  /** C++ `long` on AVR (also the type of an Encoder position). */
  type Int32 = x: int | -0x8000_0000 <= x < 0x8000_0000
  /** A DMX slot value. */
  type UInt8 = x: int | 0 <= x < 0x100
  /** C++ `unsigned long` on AVR, the type of `millis()`. */
  type UInt32 = x: int | 0 <= x < 0x1_0000_0000

  /** `a - b` on `unsigned long`: the true difference, plus 2^32 when it is negative. */
  function Sub32(a: UInt32, b: UInt32): (r: UInt32)
    ensures a >= b ==> r == a - b
    ensures a < b ==> r == a - b + TwoTo32
  {
    (a - b) % TwoTo32
  }

  /** Conversion of an integer value to `unsigned long`: the representative of x modulo 2^32. */
  function ToUInt32(x: int): (r: UInt32)
    ensures (x - r) % TwoTo32 == 0
    ensures 0 <= x < TwoTo32 ==> r == x
  {
    x % TwoTo32
  }

  /** Conversion to a 16-bit `int` (two's complement): the representative of x modulo 2^16
      in [-2^15, 2^15). */
  function ToInt16(x: int): (r: Int16)
    ensures (x - r) % TwoTo16 == 0
    ensures -0x8000 <= x < 0x8000 ==> r == x
  {
    var m := x % TwoTo16;
    if m < 0x8000 then m else m - TwoTo16
  }

  /** Conversion to a 32-bit `long` (two's complement): the representative of x modulo 2^32
      in [-2^31, 2^31). */
  function ToInt32(x: int): (r: Int32)
    ensures (x - r) % TwoTo32 == 0
    ensures -0x8000_0000 <= x < 0x8000_0000 ==> r == x
  {
    var m := x % TwoTo32;
    if m < 0x8000_0000 then m else m - TwoTo32
  }

  /** C++ integer division `a / d` for a positive divisor: it truncates toward zero,
      unlike Dafny's Euclidean `/`, so the quotient of a negative `a` is rounded up. */
  function TruncDiv(a: int, d: int): (q: int)
    requires d > 0
    ensures 0 <= a ==> 0 <= q && q * d <= a < q * d + d
    ensures a < 0 ==> q <= 0 && q * d - d < a <= q * d
  {
    if a >= 0 then a / d else -((-a) / d)
  }

  /** Distance between two integers. */
  function Dist(x: int, y: int): nat
  {
    if x <= y then y - x else x - y
  }

  /** Arduino's `constrain(x, lo, hi)`: below `lo` gives `lo`, above `hi` gives `hi`,
      otherwise `x`. For a non-empty range this is the point of [lo, hi] nearest to x. */
  function Constrain(x: int, lo: int, hi: int): (r: int)
    ensures lo <= hi ==> lo <= r <= hi
    ensures lo <= hi ==> forall y :: lo <= y <= hi ==> Dist(x, r) <= Dist(x, y)
  {
    if x < lo then lo else if x > hi then hi else x
  }

  /** Truncating and Euclidean division differ only for negative dividends that are not
      multiples of the divisor, and both give a non-positive quotient there, so once the
      quotient is constrained into a range starting at 0 the two agree. */
  lemma ConstrainHidesRounding(a: int, d: int, hi: int)
    requires d > 0 && 0 <= hi
    ensures Constrain(TruncDiv(a, d), 0, hi) == Constrain(a / d, 0, hi)
  {
  }
}
