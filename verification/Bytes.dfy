/**
 Bytes, text as byte strings, and little-endian integers of a given width.

 Integers are unbounded here, so a C++ cast or shift is written out: `ToLE(v, n)` keeps
 the low `n` bytes of the two's complement of `v`, also for a negative `v`, because `/`
 and `%` round towards minus infinity for a positive divisor.
 */
module Bytes {

  type byte = x: int | 0 <= x < 256

  /** A C++ `std::string`: bytes with no encoding attached. */
  type Text = seq<byte>

  datatype Option<+T> = None | Some(value: T)

  /** The bytes of an ASCII literal. */
  function Ascii(s: string): (t: Text)
    ensures |t| == |s|
  {
    seq(|s|, i requires 0 <= i < |s| => s[i] as int % 256)
  }

  function Pow256(n: nat): (p: nat)
    ensures p > 0
  {
    if n == 0 then 1 else 256 * Pow256(n - 1)
  }

  function ToLE(v: int, n: nat): (s: seq<byte>)
    ensures |s| == n
    decreases n, v
  {
    if n == 0 then [] else [v % 256] + ToLE(v / 256, n - 1)
  }

  function FromLE(s: seq<byte>): (v: nat)
  {
    if s == [] then 0 else s[0] + 256 * FromLE(s[1..])
  }

  const TWO_63: int := 0x8000_0000_0000_0000
  const TWO_64: int := 0x1_0000_0000_0000_0000
  const TWO_32: int := 0x1_0000_0000

  predicate IsInt64(v: int) { -TWO_63 <= v < TWO_63 }

  predicate IsInt32(v: int) { -0x8000_0000 <= v < 0x8000_0000 }

  /** `static_cast<int64_t>` of an unsigned 64-bit value. */
  function Signed64(u: int): int {
    if u < TWO_63 then u else u - TWO_64
  }

  /** `static_cast<int32_t>` of an unsigned 32-bit value. */
  function Signed32(u: int): int {
    if u < 0x8000_0000 then u else u - TWO_32
  }

  lemma PeelByte(v: int, p: int)
    requires p > 0
    ensures v % (256 * p) == v % 256 + 256 * ((v / 256) % p)
  {
    var q, r := v / 256, v % 256;
    var k, m := q / p, q % p;
    assert v == 256 * (k * p + m) + r;
    assert v == (256 * p) * k + (256 * m + r);
    assert 0 <= 256 * m + r < 256 * p by {
      assert m <= p - 1;
    }
    RemainderIs(v, 256 * p, k, 256 * m + r);
  }

  lemma NonzeroMultiple(d: int, j: nat)
    requires d > 0 && j > 0
    ensures d * j >= d
  {
  }

  lemma RemainderIs(v: int, d: int, k: int, r: int)
    requires d > 0 && v == d * k + r && 0 <= r < d
    ensures v % d == r
  {
    var k', r' := v / d, v % d;
    assert d * (k - k') == r' - r;
    if k > k' {
      NonzeroMultiple(d, k - k');
      assert false;
    }
    if k < k' {
      NonzeroMultiple(d, k' - k);
      assert false;
    }
  }

  /** Reading back what was written gives the value modulo the width. */
  lemma {:induction false} FromToLE(v: int, n: nat)
    ensures FromLE(ToLE(v, n)) == v % Pow256(n)
    decreases n
  {
    if n > 0 {
      FromToLE(v / 256, n - 1);
      assert ToLE(v, n)[1..] == ToLE(v / 256, n - 1);
      PeelByte(v, Pow256(n - 1));
    }
  }

  /** Writing back what was read gives the same bytes: the encoding loses nothing. */
  lemma {:induction false} ToFromLE(s: seq<byte>)
    ensures ToLE(FromLE(s), |s|) == s
  {
    if s != [] {
      ToFromLE(s[1..]);
      var v := FromLE(s);
      assert v % 256 == s[0] && v / 256 == FromLE(s[1..]);
      assert s == [s[0]] + s[1..];
    }
  }

  lemma Widths()
    ensures Pow256(2) == 65536 && Pow256(4) == TWO_32 && Pow256(8) == TWO_64
  {
    assert Pow256(1) == 256 * Pow256(0);
    assert Pow256(2) == 256 * Pow256(1);
    assert Pow256(3) == 256 * Pow256(2);
    assert Pow256(4) == 256 * Pow256(3);
    assert Pow256(5) == 256 * Pow256(4);
    assert Pow256(6) == 256 * Pow256(5);
    assert Pow256(7) == 256 * Pow256(6);
  }

  lemma RoundTrip16(v: int)
    requires 0 <= v < 65536
    ensures FromLE(ToLE(v, 2)) == v
  {
    FromToLE(v, 2);
    Widths();
  }

  /** The low half is the value, the high half the value less the width. */
  lemma WrapSigned(v: int, half: int)
    requires half > 0 && -half <= v < 2 * half
    ensures v % (2 * half) == if v < 0 then v + 2 * half else v
  {
    if v < 0 {
      RemainderIs(v, 2 * half, -1, v + 2 * half);
    } else {
      RemainderIs(v, 2 * half, 0, v);
    }
  }

  lemma RoundTrip32(v: int)
    requires IsInt32(v) || 0 <= v < TWO_32
    ensures 0 <= v ==> FromLE(ToLE(v, 4)) == v
    ensures IsInt32(v) ==> Signed32(FromLE(ToLE(v, 4))) == v
  {
    FromToLE(v, 4);
    Widths();
    WrapSigned(v, 0x8000_0000);
  }

  lemma RoundTrip64(v: int)
    requires IsInt64(v) || 0 <= v < TWO_64
    ensures 0 <= v ==> FromLE(ToLE(v, 8)) == v
    ensures IsInt64(v) ==> Signed64(FromLE(ToLE(v, 8))) == v
  {
    FromToLE(v, 8);
    Widths();
    WrapSigned(v, TWO_63);
  }

  /** A read of `n` bytes never exceeds the width: it fits the C++ integer type. */
  lemma {:induction false} FromLEBounded(s: seq<byte>)
    ensures FromLE(s) < Pow256(|s|)
  {
    if s != [] { FromLEBounded(s[1..]); }
  }

  lemma OneMore(n: nat, k: nat)
    requires n > 0
    ensures (n - 1) * k + k == n * k && (n - 1) * k >= 0
  {
  }

  lemma DropPrefix<T>(s: seq<T>, pos: nat, a: seq<T>, b: seq<T>)
    requires pos <= |s| && s[pos..] == a + b
    ensures pos + |a| <= |s| && s[pos + |a|..] == b
  {
    assert |s| == pos + |a| + |b|;
    assert s[pos + |a|..] == s[pos..][|a|..];
  }

  lemma Reassociate<T>(a: seq<T>, b: seq<T>, c: seq<T>)
    ensures (a + b) + c == a + (b + c)
  {
  }

  lemma Slices<T>(s: seq<T>, i: nat, j: nat)
    requires i <= j <= |s|
    ensures s[..j] == s[..i] + s[i..j]
  {
  }

  /** `buf` with `data` copied over it at `at`. */
  function Splice(buf: seq<byte>, at: nat, data: seq<byte>): (r: seq<byte>)
    requires at + |data| <= |buf|
    ensures |r| == |buf|
  {
    buf[..at] + data + buf[at + |data|..]
  }

  /** Up to its end, a copy is the bytes before it and the copied bytes. */
  lemma SplicePrefix(buf: seq<byte>, at: nat, data: seq<byte>)
    requires at + |data| <= |buf|
    ensures Splice(buf, at, data)[..at + |data|] == buf[..at] + data
  {
  }

  /** A copy over the whole buffer replaces it. */
  lemma SpliceAll(buf: seq<byte>, data: seq<byte>)
    requires |data| == |buf|
    ensures Splice(buf, 0, data) == data
  {
  }

  /** Two copies side by side are one copy. */
  lemma SpliceTwice(buf: seq<byte>, at: nat, x: seq<byte>, y: seq<byte>)
    requires at + |x| + |y| <= |buf|
    ensures Splice(Splice(buf, at, x), at + |x|, y) == Splice(buf, at, x + y)
  {
  }

  /** The byte loop of write_int64_le and write_uint16_le, in place. */
  method WriteLE(buf: array<byte>, at: nat, v: int, n: nat)
    requires at + n <= buf.Length
    modifies buf
    ensures buf[..] == Splice(old(buf[..]), at, ToLE(v, n))
  {
    var rest := v;
    for i := 0 to n
      invariant ToLE(v, n)[i..] == ToLE(rest, n - i)
      invariant forall j :: 0 <= j < i ==> buf[at + j] == ToLE(v, n)[j]
      invariant forall j :: 0 <= j < buf.Length && !(at <= j < at + i) ==> buf[j] == old(buf[j])
    {
      assert ToLE(v, n)[i] == ToLE(rest, n - i)[0];
      buf[at + i] := rest % 256;
      rest := rest / 256;
      assert ToLE(v, n)[i + 1..] == ToLE(v, n)[i..][1..];
    }
  }
}
