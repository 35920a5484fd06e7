/** Shared vocabulary: optional values, API reads that may fail, and Go's machine integers. */
module Base {

  datatype Option<+T> = None | Some(value: T)

  /** The outcome of an API read: the value that was read, or an error. */
  datatype Read<+T> = Got(value: T) | ReadError

  const MIN32: int := -0x8000_0000
  const MAX32: int := 0x7FFF_FFFF
  const MIN64: int := -0x8000_0000_0000_0000
  const MAX64: int := 0x7FFF_FFFF_FFFF_FFFF

  type Int32 = n: int | -0x8000_0000 <= n <= 0x7FFF_FFFF

  /** Go's conversion int32(n): two's complement truncation. */
  function Wrap32(n: int): (r: Int32)
    ensures MIN32 <= n <= MAX32 ==> r == n
  {
    if MIN32 <= n <= MAX32 then n
    else (n + 0x8000_0000) % 0x1_0000_0000 - 0x8000_0000
  }

  /** n + 1 in Go's int32. */
  function Succ32(n: Int32): (r: Int32)
    ensures r == Wrap32(n as int + 1)
  {
    if n == MAX32 then MIN32 else n + 1
  }

  /** Arithmetic on Go's int64, such as multiplying a time.Duration: two's complement wrap-around. */
  function Wrap64(n: int): (r: int)
    ensures MIN64 <= r <= MAX64
    ensures MIN64 <= n <= MAX64 ==> r == n
  {
    if MIN64 <= n <= MAX64 then n
    else (n + 0x8000_0000_0000_0000) % 0x1_0000_0000_0000_0000 - 0x8000_0000_0000_0000
  }

  /** time.Time.Sub saturates at the ends of time.Duration. */
  function Clamp64(n: int): (r: int)
    ensures MIN64 <= r <= MAX64
    ensures MIN64 <= n <= MAX64 ==> r == n
  {
    if n < MIN64 then MIN64 else if n > MAX64 then MAX64 else n
  }

  /** Both conversions keep the number up to a multiple of the width. */
  lemma WrapIsCongruent(n: int) returns (k: int, l: int)
    ensures Wrap32(n) == n + k * 0x1_0000_0000
    ensures Wrap64(n) == n + l * 0x1_0000_0000_0000_0000
  {
    k := if MIN32 <= n <= MAX32 then 0 else -((n + 0x8000_0000) / 0x1_0000_0000);
    l := if MIN64 <= n <= MAX64 then 0 else -((n + 0x8000_0000_0000_0000) / 0x1_0000_0000_0000_0000);
  }

  /** A saturated duration is the one in range that is nearest. */
  lemma ClampIsNearest(n: int, m: int)
    requires -0x8000_0000_0000_0000 <= m <= 0x7FFF_FFFF_FFFF_FFFF
    ensures n <= m ==> n <= Clamp64(n) <= m
    ensures m <= n ==> m <= Clamp64(n) <= n
  {
    assert MIN64 == -0x8000_0000_0000_0000 && MAX64 == 0x7FFF_FFFF_FFFF_FFFF;
  }

  /** One second and one millisecond, in the nanoseconds of time.Duration. */
  const SECOND: int := 1_000_000_000
  const MILLISECOND: int := 1_000_000

  /** What survives of an instant in the RFC 3339 layout without fractional seconds. */
  function TruncateToSecond(t: int): (r: int)
    ensures r <= t < r + SECOND
  {
    t - t % SECOND
  }
}
