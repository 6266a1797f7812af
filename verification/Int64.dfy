/** Go's 64-bit integers: sums and products wrap, division truncates. */
module Int64 {
  const MIN_INT64: int := -0x8000_0000_0000_0000
  const MAX_INT64: int := 0x7fff_ffff_ffff_ffff

  type int64 = x: int | MIN_INT64 <= x <= MAX_INT64

  /** Two's complement reduction to 64 bits. */
  function Wrap(x: int): int64 {
    (x - MIN_INT64) % 0x1_0000_0000_0000_0000 + MIN_INT64
  }

  /** Go's integer division, which truncates toward zero. */
  function Quotient(a: int, b: int): int
    requires b > 0
  {
    if a >= 0 then a / b else -((-a) / b)
  }
}
