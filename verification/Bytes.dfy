/** Bytes, little-endian integers and splices of byte sequences. */
module Bytes {

  type Byte = x: int | 0 <= x < 256

  const TWO_31: int := 0x8000_0000
  const TWO_32: int := 0x1_0000_0000
  const TWO_63: int := 0x8000_0000_0000_0000
  const TWO_64: int := 0x1_0000_0000_0000_0000

  function Low(v: nat): Byte
  {
    v % 256
  }

  /** The four low bytes of v, least significant first (`to_le_bytes`). */
  function Le4(v: nat): (s: seq<Byte>)
    ensures |s| == 4
  {
    [Low(v), Low(v / 256), Low(v / 0x1_0000), Low(v / 0x100_0000)]
  }

  function Read32(s: seq<Byte>): (v: nat)
    requires |s| == 4
    ensures v < TWO_32
  {
    var a: int, b: int, c: int, d: int := s[0], s[1], s[2], s[3];
    a + 256 * b + 0x1_0000 * c + 0x100_0000 * d
  }

  lemma Read32Back(v: nat)
    requires v < TWO_32
    ensures Read32(Le4(v)) == v
  {
    var a: nat, b: nat, c: nat := v / 256, v / 0x1_0000, v / 0x100_0000;
    assert a / 256 == b && b / 256 == c && c < 256;
    assert v == 256 * a + v % 256 && a == 256 * b + a % 256 && b == 256 * c + b % 256;
  }

  lemma Le4Back(s: seq<Byte>)
    requires |s| == 4
    ensures Le4(Read32(s)) == s
  {
    Digits(s[0], s[1], s[2], s[3]);
  }

  lemma Digits(a: int, b: int, c: int, d: int)
    requires 0 <= a < 256 && 0 <= b < 256 && 0 <= c < 256 && 0 <= d < 256
    ensures var v := a + 256 * b + 0x1_0000 * c + 0x100_0000 * d;
            v % 256 == a && (v / 256) % 256 == b && (v / 0x1_0000) % 256 == c && (v / 0x100_0000) % 256 == d
  {
    var v := a + 256 * b + 0x1_0000 * c + 0x100_0000 * d;
    assert v / 0x100_0000 == d;
    assert v / 0x1_0000 == c + 256 * d;
    assert v / 256 == b + 256 * c + 0x1_0000 * d;
  }

  /** Least significant byte first. */
  lemma Le4Sum(v: nat)
    requires v < 0x1_0000_0000
    ensures var s: seq<int> := Le4(v); s[0] + 0x100 * s[1] + 0x1_0000 * s[2] + 0x100_0000 * s[3] == v
  {
    Read32Back(v);
  }

  function Le8(v: nat): (s: seq<Byte>)
    ensures |s| == 8
  {
    Le4(v % TWO_32) + Le4(v / TWO_32)
  }

  function Read64(s: seq<Byte>): (v: nat)
    requires |s| == 8
    ensures v < TWO_64
  {
    Read32(s[..4]) + TWO_32 * Read32(s[4..])
  }

  lemma Read64Back(v: nat)
    requires v < TWO_64
    ensures Read64(Le8(v)) == v
  {
    Read32Back(v % TWO_32);
    Read32Back(v / TWO_32);
    assert Le8(v)[..4] == Le4(v % TWO_32) && Le8(v)[4..] == Le4(v / TWO_32);
  }

  lemma Le8Back(s: seq<Byte>)
    requires |s| == 8
    ensures Le8(Read64(s)) == s
  {
    hide Le4, Read32;
    var lo, hi := Read32(s[..4]), Read32(s[4..]);
    Le4Back(s[..4]);
    Le4Back(s[4..]);
    assert Read64(s) % TWO_32 == lo && Read64(s) / TWO_32 == hi;
    assert s == s[..4] + s[4..];
  }

  lemma Le8Sum(v: nat)
    requires v < 0x1_0000_0000_0000_0000
    ensures Le8(v)[..4] == Le4(v % 0x1_0000_0000) && Le8(v)[4..] == Le4(v / 0x1_0000_0000)
  {
  }

  /** s with the bytes b written over it at offset `at`. */
  function Splice(s: seq<Byte>, at: nat, b: seq<Byte>): (r: seq<Byte>)
    requires at + |b| <= |s|
    ensures |r| == |s|
    ensures r[at..at + |b|] == b
    ensures forall k :: 0 <= k < |s| && !(at <= k < at + |b|) ==> r[k] == s[k]
  {
    s[..at] + b + s[at + |b|..]
  }

  lemma SliceOfSlice(s: seq<Byte>, a: nat, b: nat, x: nat, y: nat)
    requires a <= b <= |s| && x <= y <= b - a
    ensures s[a..b][x..y] == s[a + x..a + y]
  {
    assert forall k :: 0 <= k < y - x ==> s[a..b][x..y][k] == s[a + x..a + y][k];
  }
}
