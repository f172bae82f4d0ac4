/**
 Base-128 varints as `encoding/binary` writes and reads them: seven bits a byte, least
 significant group first, the top bit set on every byte but the last, and at most ten
 bytes for a 64-bit value.
 */
module Varint {
  import opened Bytes

  const MAX_VARINT_LEN := 10

  function PutUvarint(x: nat): (s: seq<uint8>)
    ensures |s| >= 1
  {
    if x < 128 then [x] else [128 + x % 128] + PutUvarint(x / 128)
  }

  /** `read` is the number of bytes consumed; 0 says the buffer ended early, a negative value says overflow. */
  datatype Scanned = Scanned(value: nat, read: int)

  function Uvarint(buf: seq<uint8>): (r: Scanned)
    ensures r.read <= |buf|
    ensures r.read <= 0 ==> r.value == 0
  {
    ScanFrom(buf, 0)
  }

  /** Scans from byte position `i` of the varint; `read` counts from position 0. */
  function ScanFrom(buf: seq<uint8>, i: nat): (r: Scanned)
    ensures r.read <= i + |buf|
    ensures r.read <= 0 ==> r.value == 0
    ensures r.read > 0 ==> r.read > i
  {
    if |buf| == 0 then Scanned(0, 0)
    else if i == MAX_VARINT_LEN then Scanned(0, -(i + 1))
    else if buf[0] < 128 then
      if i == MAX_VARINT_LEN - 1 && buf[0] > 1 then Scanned(0, -(i + 1))
      else Scanned(buf[0], i + 1)
    else
      var r := ScanFrom(buf[1..], i + 1);
      if r.read <= 0 then r else Scanned(buf[0] - 128 + 128 * r.value, r.read)
  }

  /** What is left of the 64-bit range once `i` groups of seven bits are gone. */
  function Limit(i: nat): nat
    requires i < MAX_VARINT_LEN
    decreases MAX_VARINT_LEN - i
  {
    if i == MAX_VARINT_LEN - 1 then 2 else 128 * Limit(i + 1)
  }

  lemma {:induction false} ScanUndoesPut(x: nat, i: nat, rest: seq<uint8>)
    requires i < MAX_VARINT_LEN && x < Limit(i)
    ensures ScanFrom(PutUvarint(x) + rest, i) == Scanned(x, i + |PutUvarint(x)|)
    decreases x
  {
    var s := PutUvarint(x) + rest;
    if x >= 128 {
      assert i < MAX_VARINT_LEN - 1;
      assert s[1..] == PutUvarint(x / 128) + rest;
      ScanUndoesPut(x / 128, i + 1, rest);
    }
  }

  /** Reading back any 64-bit value, whatever bytes follow it. */
  lemma {:induction false} UvarintRoundTrip(x: nat, rest: seq<uint8>)
    requires x < TWO64
    ensures Uvarint(PutUvarint(x) + rest) == Scanned(x, |PutUvarint(x)|)
  {
    assert Limit(0) == TWO64 by {
      assert Limit(8) == 128 * 2;
      assert Limit(6) == 128 * 128 * 256;
      assert Limit(4) == 128 * 128 * Limit(6);
      assert Limit(2) == 128 * 128 * Limit(4);
      assert Limit(0) == 128 * 128 * Limit(2);
    }
    ScanUndoesPut(x, 0, rest);
  }

  function Pow128(k: nat): nat {
    if k == 0 then 1 else 128 * Pow128(k - 1)
  }

  lemma {:induction false} VarintLength(x: nat, k: nat)
    requires k > 0 && x < Pow128(k)
    ensures |PutUvarint(x)| <= k
  {
    assert Pow128(1) == 128 * Pow128(0);
    if x >= 128 {
      VarintLength(x / 128, k - 1);
    }
  }

  /** A 31-bit sequence number takes at most five bytes. */
  lemma {:induction false} SequenceLength(seqNo: nat)
    requires seqNo < TWO31
    ensures |PutUvarint(seqNo)| <= 5
  {
    assert Pow128(3) == 128 * 128 * 128;
    assert Pow128(5) == 128 * 128 * Pow128(3);
    VarintLength(seqNo, 5);
  }
}
