/** Integer operations of the source that differ from Dafny's. */
module Integers {
  /** Division that truncates toward zero, as machine integers divide. */
  function TruncDiv(a: int, b: int): int
    requires b > 0
  {
    if a >= 0 then a / b else -((-a) / b)
  }

  /** An integer reduced to 32 signed bits, as by a cast to `i32` or wrapping arithmetic on it. */
  function WrapI32(n: int): int {
    (n + 0x8000_0000) % 0x1_0000_0000 - 0x8000_0000
  }
}
