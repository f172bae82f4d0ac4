/**
 Fixed-width integers and the byte-order helpers the xgress wire formats rely on.
 Go's unsigned arithmetic wraps, so every wrapping operation is written out here
 instead of being left to Dafny's unbounded integers.
 */
module Bytes {

  type uint8 = x: int | 0 <= x < 0x100
  type uint16 = x: int | 0 <= x < 0x1_0000
  type uint32 = x: int | 0 <= x < 0x1_0000_0000
  type int32 = x: int | -0x8000_0000 <= x < 0x8000_0000

  const TWO16 := 0x1_0000
  const TWO31 := 0x8000_0000
  const TWO32 := 0x1_0000_0000
  const TWO64 := 0x1_0000_0000_0000_0000

  datatype Option<+T> = None | Some(value: T)

  /** The uint32 a Go conversion `uint32(x)` produces. */
  function ToU32(x: int): uint32 {
    x % TWO32
  }

  /** The int32 a Go conversion `int32(x)` produces. */
  function ToI32(x: int): int32 {
    var m := x % TWO32;
    if m < TWO31 then m else m - TWO32
  }

  /** The uint16 a Go conversion `uint16(x)` produces. */
  function ToU16(x: int): uint16 {
    x % TWO16
  }

  /** Go's `^x` on a uint32. */
  function Complement(x: uint32): uint32 {
    TWO32 - 1 - x
  }

  /** `size + ^uint32(n-1)`, the way the txer takes `n` bytes off the shared size counter. */
  function ReleaseSize(size: uint32, n: nat): uint32 {
    ToU32(size + Complement(ToU32(n - 1)))
  }

  /** The complement trick is subtraction modulo 2^32, for n = 0 as well. */
  lemma ReleaseSizeSubtracts(total: nat, n: nat)
    requires n <= total
    ensures ReleaseSize(ToU32(total), n) == ToU32(total - n)
  {
    var q := (n - 1) / TWO32;
    assert n - 1 == q * TWO32 + ToU32(n - 1);
    var p := total / TWO32;
    assert total == p * TWO32 + ToU32(total);
    assert ToU32(total) + Complement(ToU32(n - 1)) == total - n + TWO32 * (q + 1 - p);
    ModShift(total - n, q + 1 - p);
  }

  lemma SmallStays(x: int)
    requires 0 <= x < TWO32
    ensures ToU32(x) == x
  {
  }

  lemma ModShift(x: int, k: int)
    ensures ToU32(x + TWO32 * k) == ToU32(x)
  {
  }

  lemma AddSize(total: nat, n: nat)
    ensures ToU32(ToU32(total) + n) == ToU32(total + n)
  {
  }

  lemma SubSize(total: nat, n: nat)
    requires n <= total
    ensures ToU32(ToU32(total) - ToU32(n)) == ToU32(total - n)
  {
  }

  // ---------------------------------------------------------------- big endian

  function Pow256(width: nat): nat
    ensures Pow256(width) > 0
  {
    if width == 0 then 1 else 256 * Pow256(width - 1)
  }

  function PutBigEndian(n: nat, width: nat): (s: seq<uint8>)
    ensures |s| == width
  {
    if width == 0 then [] else PutBigEndian(n / 256, width - 1) + [n % 256]
  }

  function BigEndian(s: seq<uint8>): nat {
    if s == [] then 0 else 256 * BigEndian(s[..|s| - 1]) + s[|s| - 1]
  }

  lemma {:induction false} BigEndianRoundTrip(n: nat, width: nat)
    requires n < Pow256(width)
    ensures BigEndian(PutBigEndian(n, width)) == n
  {
    if width > 0 {
      var s := PutBigEndian(n, width);
      assert s[..|s| - 1] == PutBigEndian(n / 256, width - 1);
      BigEndianRoundTrip(n / 256, width - 1);
    }
  }

  // ---------------------------------------------------------------- slices

  function Min(a: int, b: int): int {
    if a <= b then a else b
  }

  /** Go's `copy(dst[off:], src)`: copies what fits and reports nothing else. */
  function CopyAt(dst: seq<uint8>, off: nat, src: seq<uint8>): (r: seq<uint8>)
    requires off <= |dst|
    ensures |r| == |dst|
    ensures r[..off] == dst[..off]
  {
    var n := Min(|src|, |dst| - off);
    dst[..off] + src[..n] + dst[off + n..]
  }

  /** `copy(chunk[off:], src)` where all of `src` fits. */
  method CopyInto(chunk: array<uint8>, off: nat, src: seq<uint8>)
    requires off + |src| <= chunk.Length
    modifies chunk
    ensures chunk[..off] == old(chunk[..off])
    ensures chunk[off..off + |src|] == src
    ensures chunk[off + |src|..] == old(chunk[off + |src|..])
  {
    for i := 0 to |src|
      invariant forall j :: 0 <= j < i ==> chunk[off + j] == src[j]
      invariant forall j :: 0 <= j < chunk.Length && !(off <= j < off + i) ==> chunk[j] == old(chunk[j])
    {
      chunk[off + i] := src[i];
    }
  }

  /** Extends the region that starts at `off` and is already `written` bytes long. */
  method AppendTo(chunk: array<uint8>, off: nat, written: nat, src: seq<uint8>)
    requires off + written + |src| <= chunk.Length
    modifies chunk
    ensures chunk[..off] == old(chunk[..off])
    ensures chunk[off..off + written + |src|] == old(chunk[off..off + written]) + src
  {
    CopyInto(chunk, off + written, src);
    assert chunk[..off] == chunk[..off + written][..off];
    assert chunk[off..off + written] == chunk[..off + written][off..];
    assert chunk[off..off + written + |src|] == chunk[off..off + written] + chunk[off + written..off + written + |src|];
    assert old(chunk[..off + written])[off..] == old(chunk[off..off + written]);
  }

  lemma HasMember(s: set<int>)
    ensures s == {} || exists k :: k in s
  {
    if forall k :: k !in s {
      assert s == {};
    }
  }
}
