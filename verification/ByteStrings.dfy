/** Byte strings under the order the key-value store sorts them by, and the
    fixed-width big-endian encoding that carries numeric order into that order. */
module ByteStrings {
  type Byte = b: int | 0 <= b < 256
  type Bytes = seq<Byte>

  const TWO_64: nat := 0x1_0000_0000_0000_0000
  const MAX_UINT64: nat := 0xFFFF_FFFF_FFFF_FFFF
  type UInt64 = n: int | 0 <= n < 0x1_0000_0000_0000_0000

  /** a is not above b in the byte-wise order (a proper prefix sorts first). */
  predicate Leq(a: Bytes, b: Bytes) {
    a == [] || (b != [] && (a[0] < b[0] || (a[0] == b[0] && Leq(a[1..], b[1..]))))
  }

  /** Byte order is decided where two strings first differ, ... */
  lemma {:induction false} LeqReads(a: Bytes, b: Bytes, k: nat)
    requires Leq(a, b) && k < |a| && k < |b| && a[..k] == b[..k]
    ensures a[k] <= b[k]
  {
    if k > 0 {
      assert a[0] == a[..k][0] == b[..k][0] == b[0];
      assert a[1..][..k - 1] == a[..k][1..] == b[..k][1..] == b[1..][..k - 1];
      LeqReads(a[1..], b[1..], k - 1);
    }
  }

  /** ... and a proper prefix comes first. */
  lemma {:induction false} LeqOfLonger(a: Bytes, b: Bytes)
    requires Leq(a, b) && b <= a
    ensures a == b
  {
    if b != [] {
      LeqOfLonger(a[1..], b[1..]);
      assert a == [a[0]] + a[1..] && b == [b[0]] + b[1..];
    }
  }

  lemma {:induction false} LeqTotal(a: Bytes, b: Bytes)
    ensures Leq(a, b) || Leq(b, a)
    ensures Leq(a, a)
  {
    if a != [] {
      LeqTotal(a[1..], if b == [] then [] else b[1..]);
    }
  }

  lemma {:induction false} LeqAntisymmetric(a: Bytes, b: Bytes)
    requires Leq(a, b) && Leq(b, a)
    ensures a == b
  {
    if a != [] {
      LeqAntisymmetric(a[1..], b[1..]);
      assert a == [a[0]] + a[1..] == [b[0]] + b[1..] == b;
    }
  }

  lemma {:induction false} LeqTransitive(a: Bytes, b: Bytes, c: Bytes)
    requires Leq(a, b) && Leq(b, c)
    ensures Leq(a, c)
  {
    if a != [] && a[0] == b[0] == c[0] {
      LeqTransitive(a[1..], b[1..], c[1..]);
    }
  }

  /** A common prefix does not matter to the order. */
  lemma {:induction false} LeqCommonPrefix(p: Bytes, a: Bytes, b: Bytes)
    ensures Leq(p + a, p + b) <==> Leq(a, b)
  {
    if p == [] {
      assert p + a == a && p + b == b;
    } else {
      assert (p + a)[1..] == p[1..] + a && (p + b)[1..] == p[1..] + b;
      LeqCommonPrefix(p[1..], a, b);
    }
  }

  /** Whatever sorts between two strings that start with p starts with p. */
  lemma {:induction false} BetweenSharesPrefix(p: Bytes, a: Bytes, f: Bytes, b: Bytes)
    requires p <= a && p <= b && Leq(a, f) && Leq(f, b)
    ensures p <= f
  {
    if p != [] {
      assert a[0] == p[0] == b[0] == f[0];
      BetweenSharesPrefix(p[1..], a[1..], f[1..], b[1..]);
      assert p == [p[0]] + p[1..] && f == [f[0]] + f[1..];
    }
  }

  function Pow256(k: nat): (r: nat)
    ensures r > 0
  {
    if k == 0 then 1 else 256 * Pow256(k - 1)
  }

  lemma {:induction false} DigitBound(n: nat, p: nat)
    requires 0 < p && n < 256 * p
    ensures 0 <= n / p < 256 && 0 <= n % p < p && n == p * (n / p) + n % p
  {
    AtLeast256(p, n / p);
  }

  lemma AtLeast256(p: nat, q: nat)
    ensures q >= 256 ==> p * q >= 256 * p
  {
    if q >= 256 {
      assert p * q == p * 256 + p * (q - 256);
    }
  }

  /** n as exactly k bytes, most significant first. */
  function BigEndian(n: nat, k: nat): (r: Bytes)
    requires n < Pow256(k)
    ensures |r| == k
  {
    if k == 0 then []
    else
      DigitBound(n, Pow256(k - 1));
      [n / Pow256(k - 1)] + BigEndian(n % Pow256(k - 1), k - 1)
  }

  function FromBigEndian(b: Bytes): nat {
    if b == [] then 0 else b[0] * Pow256(|b| - 1) + FromBigEndian(b[1..])
  }

  lemma DigitGap(p: nat, a: nat, c: nat, b: nat, d: nat)
    requires c < p && d < p
    ensures a < b ==> p * a + c < p * b + d
  {
    if a < b {
      var k := b - a - 1;
      assert p * b == p * a + p + p * k;
    }
  }

  /** The first byte of an encoding and the number that the others encode. */
  lemma FirstByte(n: nat, k: nat) returns (c: Byte, r: nat)
    requires k > 0 && n < Pow256(k)
    ensures r < Pow256(k - 1) && n == Pow256(k - 1) * c + r
    ensures BigEndian(n, k) == [c] + BigEndian(r, k - 1)
  {
    DigitBound(n, Pow256(k - 1));
    c, r := n / Pow256(k - 1), n % Pow256(k - 1);
  }

  lemma {:induction false} BigEndianRoundTrip(n: nat, k: nat)
    requires n < Pow256(k)
    ensures FromBigEndian(BigEndian(n, k)) == n
    decreases k
  {
    hide Pow256, BigEndian, FromBigEndian;
    if k == 0 {
      NoBytes(n, []);
    } else {
      var c, r := FirstByte(n, k);
      BigEndianRoundTrip(r, k - 1);
      FromCons(c, BigEndian(r, k - 1));
    }
  }

  lemma FromCons(c: Byte, b: Bytes)
    ensures FromBigEndian([c] + b) == c * Pow256(|b|) + FromBigEndian(b)
  {
    hide Pow256;
    assert ([c] + b)[1..] == b;
  }

  lemma FirstBytes(m: nat, n: nat, k: nat) returns (c: Byte, r: nat, d: Byte, s: nat)
    requires k > 0 && m < Pow256(k) && n < Pow256(k)
    ensures r < Pow256(k - 1) && BigEndian(m, k) == [c] + BigEndian(r, k - 1)
    ensures s < Pow256(k - 1) && BigEndian(n, k) == [d] + BigEndian(s, k - 1)
    ensures m < n <==> c < d || (c == d && r < s)
    ensures m == n <==> c == d && r == s
  {
    hide Pow256, BigEndian;
    c, r := FirstByte(m, k);
    d, s := FirstByte(n, k);
    DigitGap(Pow256(k - 1), c, r, d, s);
    DigitGap(Pow256(k - 1), d, s, c, r);
  }

  /** The encoding embeds numeric order, whatever follows it. */
  lemma {:induction false} BigEndianOrder(m: nat, n: nat, k: nat, x: Bytes, y: Bytes)
    requires m < Pow256(k) && n < Pow256(k)
    ensures Leq(BigEndian(m, k) + x, BigEndian(n, k) + y) <==> m < n || (m == n && Leq(x, y))
    decreases k
  {
    hide Leq, Pow256, BigEndian;
    if k == 0 {
      NoBytes(m, x);
      NoBytes(n, y);
    } else {
      var c, r, d, s := FirstBytes(m, n, k);
      BigEndianOrder(r, s, k - 1, x, y);
      ConsOrder(c, BigEndian(r, k - 1), x, d, BigEndian(s, k - 1), y);
    }
  }

  lemma NoBytes(n: nat, x: Bytes)
    requires n < Pow256(0)
    ensures n == 0 && BigEndian(n, 0) + x == x && FromBigEndian(BigEndian(n, 0)) == 0
  {
  }

  lemma ConsOrder(c: Byte, a: Bytes, x: Bytes, d: Byte, b: Bytes, y: Bytes)
    ensures Leq([c] + a + x, [d] + b + y) <==> c < d || (c == d && Leq(a + x, b + y))
  {
    hide Leq;
    assert [c] + a + x == [c] + (a + x) && [d] + b + y == [d] + (b + y);
    LeqCons(c, a + x, d, b + y);
  }

  lemma LeqCons(c: Byte, a: Bytes, d: Byte, b: Bytes)
    ensures Leq([c] + a, [d] + b) <==> c < d || (c == d && Leq(a, b))
  {
    assert ([c] + a)[1..] == a && ([d] + b)[1..] == b;
  }

  lemma Pow256Of8()
    ensures Pow256(8) == TWO_64
  {
    assert Pow256(4) == 0x1_0000_0000;
    assert Pow256(6) == 0x1_0000_0000_0000;
  }

  function EncodeUint64(n: UInt64): (r: Bytes)
    ensures |r| == 8
  {
    Pow256Of8();
    BigEndian(n, 8)
  }

  /** Reads the first eight bytes, as a big-endian reader does on a longer slice. */
  function DecodeUint64(b: Bytes): nat
    requires |b| >= 8
  {
    FromBigEndian(b[..8])
  }

  lemma Uint64RoundTrip(n: UInt64, rest: Bytes)
    ensures DecodeUint64(EncodeUint64(n) + rest) == n
  {
    Pow256Of8();
    BigEndianRoundTrip(n, 8);
    assert (EncodeUint64(n) + rest)[..8] == EncodeUint64(n);
  }

  lemma Uint64Order(m: UInt64, n: UInt64, x: Bytes, y: Bytes)
    ensures Leq(EncodeUint64(m) + x, EncodeUint64(n) + y) <==> m < n || (m == n && Leq(x, y))
  {
    Pow256Of8();
    BigEndianOrder(m, n, 8, x, y);
  }

  lemma Uint64Injective(m: UInt64, n: UInt64)
    requires EncodeUint64(m) == EncodeUint64(n)
    ensures m == n
  {
    Uint64RoundTrip(m, []);
    Uint64RoundTrip(n, []);
  }
}
