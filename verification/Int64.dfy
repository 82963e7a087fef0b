/** Signed 64-bit arithmetic and the decimal conversions around it. A decimal
    string is represented by the integer it denotes. */
module Int64 {
  const MIN_INT64: int := -0x8000_0000_0000_0000
  const MAX_INT64: int := 0x7FFF_FFFF_FFFF_FFFF

  predicate IsInt64(n: int) {
    MIN_INT64 <= n <= MAX_INT64
  }

  /** Two's-complement wrap-around. */
  function Wrap64(n: int): (r: int)
    ensures IsInt64(r)
    ensures IsInt64(n) ==> r == n
  {
    (n + 0x8000_0000_0000_0000) % 0x1_0000_0000_0000_0000 - 0x8000_0000_0000_0000
  }

  /** ParseInt with its range error dropped: the nearest 64-bit value. */
  function ParseInt64(n: int): (r: int)
    ensures IsInt64(r)
    ensures IsInt64(n) ==> r == n
  {
    if n < MIN_INT64 then MIN_INT64 else if n > MAX_INT64 then MAX_INT64 else n
  }

  /** No 64-bit value is nearer. */
  lemma ParseInt64IsNearest(n: int, m: int)
    requires -0x8000_0000_0000_0000 <= m < 0x8000_0000_0000_0000
    ensures -0x8000_0000_0000_0000 <= ParseInt64(n) < 0x8000_0000_0000_0000
    ensures Distance(ParseInt64(n), n) <= Distance(m, n)
  {
  }

  function Distance(a: int, b: int): int {
    if a < b then b - a else a - b
  }

  /** int64(x) * -1 for an unsigned x. */
  function Negate64(x: nat): (r: int)
    ensures IsInt64(r)
    ensures x <= MAX_INT64 ==> r == 0 - x
  {
    Wrap64(0 - Wrap64(x))
  }

  /** Negation of an unsigned 64-bit amount: right up to 2^63, where it wraps to itself
      with its sign, and past it the positive rest to 2^64. */
  lemma NegateIs(x: nat)
    requires x < 0x1_0000_0000_0000_0000
    ensures Negate64(x) == if x <= 0x8000_0000_0000_0000 then 0 - x else 0x1_0000_0000_0000_0000 - x
  {
  }

  /** Wrapping partial sums do not lose anything that the final wrap keeps. */
  lemma WrapAdd(a: int, b: int)
    ensures Wrap64(Wrap64(a) + b) == Wrap64(a + b)
  {
    var m := 0x1_0000_0000_0000_0000;
    var k := (a + 0x8000_0000_0000_0000) / m;
    assert Wrap64(a) == a - k * m;
    ModShift(a + b + 0x8000_0000_0000_0000, -k);
  }

  lemma ModShift(x: int, k: int)
    ensures (x + k * 0x1_0000_0000_0000_0000) % 0x1_0000_0000_0000_0000 == x % 0x1_0000_0000_0000_0000
  {
  }

  /** A number is the wrap of another exactly when it has 64 bits and the two
      differ by a multiple of 2^64. */
  lemma WrapsTo(n: int, m: int)
    ensures n == Wrap64(m) <==> IsInt64(n) && (n - m) % 0x1_0000_0000_0000_0000 == 0
  {
    var size := 0x1_0000_0000_0000_0000;
    var k := (m + 0x8000_0000_0000_0000) / size;
    assert Wrap64(m) == m - k * size;
    if n == Wrap64(m) {
      ModShift(0, -k);
    } else if (n - m) % size == 0 {
      var j := (n - m) / size;
      assert n == m + j * size;
      ModShift(m + 0x8000_0000_0000_0000, j);
      assert Wrap64(n) == Wrap64(m);
    }
  }
}
