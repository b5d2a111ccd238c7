/** Java's 32-bit `int` arithmetic, written out on Dafny's unbounded integers:
    wrap-around on overflow, unary minus, `Math.abs` and the arithmetic shift
    `>> 1`. */
module JavaInt {

  const MIN_INT: int := -0x8000_0000
  const MAX_INT: int := 0x7fff_ffff
  const TWO_TO_32: int := 0x1_0000_0000

  /** The values a Java `int` can hold. */
  type int32 = x: int | MIN_INT <= x <= MAX_INT

  predicate InRange(x: int) {
    MIN_INT <= x <= MAX_INT
  }

  /** The 32-bit two's-complement value of a mathematical result, as Java
      produces for an `int` multiplication or negation that overflows. */
  function Wrap(x: int): (r: int32)
    ensures (r - x) % TWO_TO_32 == 0
    ensures InRange(x) ==> r == x
  {
    (x - MIN_INT) % TWO_TO_32 + MIN_INT
  }

  /** Java's unary minus on an `int`: negating `Integer.MIN_VALUE` overflows
      back to `Integer.MIN_VALUE`. */
  function Neg(x: int32): (r: int32)
    ensures x != MIN_INT ==> r as int == -(x as int)
    ensures x == MIN_INT ==> r == MIN_INT
  {
    Wrap(-(x as int))
  }

  /** Java's `Math.abs(int)`: the negation of `Integer.MIN_VALUE` overflows
      back to `Integer.MIN_VALUE`, so that one result is negative. */
  function Abs(x: int32): (r: int32)
    ensures r == x || r as int == -(x as int)
    ensures r >= 0 <==> x != MIN_INT
  {
    if x < 0 then Neg(x) else x
  }

  /** Java's `x >> 1` on an `int`: the arithmetic shift rounds towards
      negative infinity. */
  function ShiftRight1(x: int32): (r: int32)
    ensures 2 * r <= x <= 2 * r + 1
  {
    x / 2
  }
}
