/** Bytes, machine-integer ranges, and the fixed-width integer encodings of the wire formats. */
module Bytes {
  type byte = b: int | 0 <= b < 0x100
  type u8 = n: int | 0 <= n < 0x100
  type u16 = n: int | 0 <= n < 0x1_0000
  type u32 = n: int | 0 <= n < 0x1_0000_0000
  type u64 = n: int | 0 <= n < 0x1_0000_0000_0000_0000

  const U16_MAX: int := 0xFFFF
  const U64_MAX: int := 0xFFFF_FFFF_FFFF_FFFF
  const TWO_TO_THE_32: int := 0x1_0000_0000
  const TWO_TO_THE_64: int := 0x1_0000_0000_0000_0000

  function Min(a: int, b: int): int {
    if a < b then a else b
  }

  function Max(a: int, b: int): int {
    if a < b then b else a
  }

  /** The number of values that fit in `n` bytes. */
  function Capacity(n: nat): (r: nat)
    ensures r > 0
  {
    if n == 0 then 1 else 256 * Capacity(n - 1)
  }

  lemma Capacities()
    ensures Capacity(1) == 0x100 && Capacity(2) == 0x1_0000
    ensures Capacity(4) == 0x1_0000_0000 && Capacity(8) == 0x1_0000_0000_0000_0000
  {
    assert Capacity(4) == 256 * (256 * Capacity(2));
    assert Capacity(8) == 256 * (256 * (256 * (256 * Capacity(4)))) by {
      assert Capacity(6) == 256 * (256 * Capacity(4));
    }
  }

  /** `to_le_bytes` of the low `n` bytes of `v`; bits above them are cut off, as `as` casts do. */
  function LittleEndian(v: nat, n: nat): (r: seq<byte>)
    ensures |r| == n
  {
    if n == 0 then [] else [v % 256] + LittleEndian(v / 256, n - 1)
  }

  /** `from_le_bytes`. */
  function FromLittleEndian(s: seq<byte>): nat {
    if s == [] then 0 else s[0] + 256 * FromLittleEndian(s[1..])
  }

  /** `to_be_bytes`. */
  function BigEndian(v: nat, n: nat): (r: seq<byte>)
    ensures |r| == n
  {
    if n == 0 then [] else BigEndian(v / 256, n - 1) + [v % 256]
  }

  /** `from_be_bytes`. */
  function FromBigEndian(s: seq<byte>): nat {
    if s == [] then 0 else 256 * FromBigEndian(s[..|s| - 1]) + s[|s| - 1]
  }

  lemma {:induction false} LittleEndianRoundTrip(v: nat, n: nat)
    requires v < Capacity(n)
    ensures FromLittleEndian(LittleEndian(v, n)) == v
  {
    if n > 0 {
      LittleEndianRoundTrip(v / 256, n - 1);
      assert LittleEndian(v, n)[1..] == LittleEndian(v / 256, n - 1);
    }
  }

  lemma {:induction false} FromLittleEndianRoundTrip(s: seq<byte>)
    ensures FromLittleEndian(s) < Capacity(|s|)
    ensures LittleEndian(FromLittleEndian(s), |s|) == s
  {
    if s != [] {
      FromLittleEndianRoundTrip(s[1..]);
      DivModUnique(FromLittleEndian(s), 256, FromLittleEndian(s[1..]), s[0]);
    }
  }

  lemma {:induction false} BigEndianRoundTrip(v: nat, n: nat)
    requires v < Capacity(n)
    ensures FromBigEndian(BigEndian(v, n)) == v
  {
    if n > 0 {
      BigEndianRoundTrip(v / 256, n - 1);
      assert BigEndian(v, n)[..n - 1] == BigEndian(v / 256, n - 1);
    }
  }

  lemma {:induction false} FromBigEndianRoundTrip(s: seq<byte>)
    ensures FromBigEndian(s) < Capacity(|s|)
    ensures BigEndian(FromBigEndian(s), |s|) == s
  {
    if s != [] {
      FromBigEndianRoundTrip(s[..|s| - 1]);
      DivModUnique(FromBigEndian(s), 256, FromBigEndian(s[..|s| - 1]), s[|s| - 1]);
    }
  }

  /** The two round trips at the widths the wire formats use. */
  lemma FixedWidthRoundTrip(v: nat, n: nat)
    requires (n == 2 && v < 0x1_0000) || (n == 4 && v < TWO_TO_THE_32) || (n == 8 && v < TWO_TO_THE_64)
    ensures FromLittleEndian(LittleEndian(v, n)) == v
    ensures FromBigEndian(BigEndian(v, n)) == v
  {
    Capacities();
    LittleEndianRoundTrip(v, n);
    BigEndianRoundTrip(v, n);
  }

  lemma FixedWidthParse(s: seq<byte>)
    ensures LittleEndian(FromLittleEndian(s), |s|) == s
    ensures BigEndian(FromBigEndian(s), |s|) == s
    ensures |s| == 2 ==> FromLittleEndian(s) < 0x1_0000
    ensures |s| == 4 ==> FromLittleEndian(s) < TWO_TO_THE_32 && FromBigEndian(s) < TWO_TO_THE_32
    ensures |s| == 8 ==> FromLittleEndian(s) < TWO_TO_THE_64 && FromBigEndian(s) < TWO_TO_THE_64
  {
    Capacities();
    FromLittleEndianRoundTrip(s);
    FromBigEndianRoundTrip(s);
  }

  /** A truncating cast followed by `to_le_bytes` keeps the value modulo the capacity. */
  lemma {:induction false} LittleEndianTruncates(v: nat, n: nat)
    ensures FromLittleEndian(LittleEndian(v, n)) == v % Capacity(n)
  {
    if n > 0 {
      LittleEndianTruncates(v / 256, n - 1);
      assert LittleEndian(v, n)[1..] == LittleEndian(v / 256, n - 1);
      var c := Capacity(n - 1);
      var q, r := v / 256 / c, v / 256 % c;
      assert v == 256 * (q * c + r) + v % 256;
      assert v == q * (256 * c) + (256 * r + v % 256);
      DivModUnique(v, 256 * c, q, 256 * r + v % 256);
    }
  }

  /** A length written by an `as u32` cast reads back modulo 2^32. */
  lemma LengthTruncates(length: nat)
    ensures FromLittleEndian(LittleEndian(length, 4)) == length % TWO_TO_THE_32
    ensures length < TWO_TO_THE_32 ==> FromLittleEndian(LittleEndian(length, 4)) == length
  {
    Capacities();
    LittleEndianTruncates(length, 4);
  }

  lemma DivModUnique(v: int, d: int, q: int, r: int)
    requires d > 0 && 0 <= r < d && v == q * d + r
    ensures v / d == q && v % d == r
  {
    var q', r' := v / d, v % d;
    assert v == q' * d + r';
    assert (q - q') * d == q * d - q' * d;
    MultipleGap(q - q', d, r' - r);
  }

  lemma MultipleGap(k: int, d: int, r: int)
    requires d > 0 && -d < r < d && k * d == r
    ensures k == 0 && r == 0
  {
    assert k > 0 ==> (k - 1) * d >= 0;
    assert k < 0 ==> (-k - 1) * d >= 0;
  }

  /** Two strings with a common slice agree on it index by index. */
  lemma SameSlice<T>(a: seq<T>, b: seq<T>, i: nat, j: nat)
    requires i <= j <= |a| && j <= |b| && a[i..j] == b[i..j]
    ensures forall k :: i <= k < j ==> a[k] == b[k]
  {
    forall k | i <= k < j
      ensures a[k] == b[k]
    {
      assert a[k] == a[i..j][k - i] && b[k] == b[i..j][k - i];
    }
  }

  lemma SubSlice<T>(s: seq<T>, a: nat, b: nat, i: nat, j: nat)
    requires a <= b <= |s| && i <= j <= b - a
    ensures s[a..b][i..j] == s[a + i..a + j]
  {
    var x, y := s[a..b][i..j], s[a + i..a + j];
    forall k | 0 <= k < j - i
      ensures x[k] == y[k]
    {
      assert x[k] == s[a..b][i + k] == s[a + i + k];
    }
  }

  lemma PrefixSlice<T>(x: seq<T>, y: seq<T>, i: nat, j: nat)
    requires i <= j <= |x|
    ensures (x + y)[i..j] == x[i..j]
  {
  }

  /** Fields of equal length at the front of equal strings are equal, and so are the rests. */
  lemma Peel<T>(a: seq<T>, x: seq<T>, b: seq<T>, y: seq<T>)
    requires a + x == b + y && |a| == |b|
    ensures a == b && x == y
  {
    assert a == (a + x)[..|a|] == (b + y)[..|b|] == b;
    assert x == (a + x)[|a|..] == (b + y)[|b|..] == y;
  }

  /** Appending `b` brings the front of `a + (b + c)` one field further. */
  lemma Append<T>(a: seq<T>, b: seq<T>, c: seq<T>)
    ensures (a + b) + c == a + (b + c)
  {
  }
}
