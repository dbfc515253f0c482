/** Bytes, NUL-terminated strings and case-insensitive comparison, as the C string functions see them. */
module Bytes {
  type byte = x: int | 0 <= x < 256

  /** A byte of a packet that is written now and patched later; it is no byte value. */
  const HOLE: int := -1

  const UNDERSCORE: int := 95
  const DOT: int := 46
  const EQUALS: int := 61

  /** The part of a character buffer before its first NUL. */
  function CStr(s: seq<int>): (r: seq<int>)
    ensures |r| <= |s| && r == s[..|r|] && 0 !in r
    ensures |r| < |s| ==> s[|r|] == 0
  {
    if s == [] || s[0] == 0 then [] else [s[0]] + CStr(s[1..])
  }

  lemma {:induction false} CStrWhole(s: seq<int>)
    requires 0 !in s
    ensures CStr(s) == s
  {
    if s == [] {
    } else {
      CStrWhole(s[1..]);
    }
  }

  function Lower(b: int): int {
    if 65 <= b <= 90 then b + 32 else b
  }

  /** strcasecmp(a, b) == 0 */
  predicate CiEq(a: seq<int>, b: seq<int>) {
    |a| == |b| && forall i :: 0 <= i < |a| ==> Lower(a[i]) == Lower(b[i])
  }

  /** strlcat into a buffer of `size` characters. */
  function StrLCat(dst: seq<int>, src: seq<int>, size: nat): seq<int>
    requires |dst| < size
  {
    if |dst| + |src| < size then dst + src else (dst + src)[..size - 1]
  }

  /** Two bytes of `v` overwritten with a 16-bit value, high byte first. */
  function Patch(v: seq<int>, at: nat, x: nat): (p: seq<int>)
    requires at + 1 < |v|
    ensures |p| == |v| && p[..at] == v[..at]
  {
    v[at := x / 256][at + 1 := x % 256]
  }

  /** What a single byte keeps of a number. */
  function LowByte(x: nat): byte {
    x % 256
  }

  lemma SmallByte(x: nat)
    ensures x < 256 ==> LowByte(x) == x
  {
  }

  predicate NoHole(s: seq<int>) {
    HOLE !in s
  }

  /** `p` carries every byte of `a` that is already final, and possibly more bytes after it. */
  predicate Agrees(a: seq<int>, p: seq<int>) {
    |a| <= |p| && forall k :: 0 <= k < |a| ==> a[k] == HOLE || a[k] == p[k]
  }

  /** The same as a function of the packet. */
  function AgreesIn(a: seq<int>): seq<int> -> bool {
    (p: seq<int>) => Agrees(a, p)
  }

  /** A string with its length in front, both cut to what a single length byte can say. */
  function CharacterString(s: seq<byte>): seq<byte> {
    [|s| % 256] + s[..|s| % 256]
  }
}
