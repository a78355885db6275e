/** Small shared vocabulary: optional values, results and the width of the identifier counters. */
module Wrappers {

  datatype Option<+T> = None | Some(value: T)

  datatype Result<+T, +E> = Ok(value: T) | Err(error: E)

  // The number of values of a 64-bit unsigned counter.
  const U64: nat := 0x1_0000_0000_0000_0000

  // `wrapping_add(1)` on such a counter.
  function WrappingSucc(n: nat): (m: nat)
    ensures m < U64
    ensures n < U64 ==> m == (n + 1) % U64
  {
    if n + 1 < U64 then n + 1 else 0
  }

  function Max(a: int, b: int): (m: int)
    ensures m == a || m == b
    ensures a <= m && b <= m
  {
    if a < b then b else a
  }
}
