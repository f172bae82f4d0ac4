/**
 The header block of a chunk: a varint count, then for each header its key byte, a varint
 length and the value. Go walks a map in no particular order, so the order is an input.
 */
module HeaderMap {
  import opened Bytes
  import opened Messages
  import opened Varint

  /** `order` lists every key of the map exactly once. */
  predicate IsOrder(order: seq<uint8>, m: Headers) {
    (forall i, j :: 0 <= i < j < |order| ==> order[i] != order[j]) && forall k: uint8 :: k in order <==> k in m
  }

  /** Go slice lengths fit a signed 64-bit int. */
  predicate GoSlices(m: Headers) {
    forall k :: k in m ==> |m[k]| < 0x8000_0000_0000_0000
  }

  function Entry(k: uint8, v: seq<uint8>): (e: seq<uint8>)
    ensures |e| >= 2
  {
    [k] + PutUvarint(|v|) + v
  }

  function EncodeEntries(order: seq<uint8>, m: Headers): seq<uint8>
    requires forall k :: k in order ==> k in m
  {
    if order == [] then [] else Entry(order[0], m[order[0]]) + EncodeEntries(order[1..], m)
  }

  function EncodeMap(order: seq<uint8>, m: Headers): seq<uint8>
    requires forall k :: k in order ==> k in m
  {
    PutUvarint(|order|) + EncodeEntries(order, m)
  }

  /** The space checks of the encoder: ten bytes before every key, then room for the value. */
  predicate Fits(order: seq<uint8>, m: Headers, room: int)
    requires forall k :: k in order ==> k in m
  {
    order == [] ||
    (room >= 10
     && |Entry(order[0], m[order[0]])| <= room
     && Fits(order[1..], m, room - |Entry(order[0], m[order[0]])|))
  }

  datatype ReadResult =
    | Entries(headers: Headers, rest: seq<uint8>)
    | Malformed
    | Panics

  function ReadEntries(count: nat, buf: seq<uint8>, acc: Headers): ReadResult
    decreases count
  {
    if count == 0 then Entries(acc, buf)
    else if |buf| < 2 then Malformed
    else
      var len := Uvarint(buf[1..]);
      if len.read < 1 then Malformed
      else
        var body := buf[len.read + 1..];
        // int(valSize) is negative from 2^63 on: the length check passes and the slice panics
        if len.value >= 0x8000_0000_0000_0000 then Panics
        else if |body| < len.value then Malformed
        else ReadEntries(count - 1, body[len.value..], acc[buf[0] := body[..len.value]])
  }

  function ReadMap(buf: seq<uint8>): ReadResult {
    var count := Uvarint(buf);
    if count.read < 1 then Malformed else ReadEntries(count.value, buf[count.read..], map[])
  }

  function PutAll(acc: Headers, order: seq<uint8>, m: Headers): Headers
    requires forall k :: k in order ==> k in m
    decreases |order|
  {
    if order == [] then acc else PutAll(acc[order[0] := m[order[0]]], order[1..], m)
  }

  lemma {:induction false} PutAllIs(acc: Headers, order: seq<uint8>, m: Headers)
    requires forall k :: k in order ==> k in m
    ensures PutAll(acc, order, m) == acc + map k | k in order :: m[k]
    decreases |order|
  {
    if order != [] {
      PutAllIs(acc[order[0] := m[order[0]]], order[1..], m);
      assert forall k :: k in order <==> k == order[0] || k in order[1..];
    }
  }

  lemma EntryReads(k: uint8, v: seq<uint8>, more: seq<uint8>, count: nat, acc: Headers)
    requires |v| < 0x8000_0000_0000_0000
    ensures ReadEntries(count + 1, Entry(k, v) + more, acc) == ReadEntries(count, more, acc[k := v])
  {
    var buf := Entry(k, v) + more;
    var n := |PutUvarint(|v|)|;
    assert buf[1..] == PutUvarint(|v|) + (v + more);
    UvarintRoundTrip(|v|, v + more);
    assert buf[n + 1..] == v + more;
    assert (v + more)[..|v|] == v && (v + more)[|v|..] == more;
  }

  lemma {:induction false} EntriesCons(order: seq<uint8>, m: Headers, rest: seq<uint8>)
    requires order != [] && forall k :: k in order ==> k in m
    ensures EncodeEntries(order, m) + rest == Entry(order[0], m[order[0]]) + (EncodeEntries(order[1..], m) + rest)
  {
  }

  lemma {:induction false} ReadUndoesEntries(order: seq<uint8>, m: Headers, rest: seq<uint8>, acc: Headers)
    requires GoSlices(m)
    requires forall k :: k in order ==> k in m
    ensures ReadEntries(|order|, EncodeEntries(order, m) + rest, acc) == Entries(PutAll(acc, order, m), rest)
    decreases |order|
  {
    if order == [] {
      assert EncodeEntries(order, m) + rest == rest;
    } else {
      var k, v, tail := order[0], m[order[0]], order[1..];
      var more := EncodeEntries(tail, m) + rest;
      calc {
        ReadEntries(|order|, EncodeEntries(order, m) + rest, acc);
        { EntriesCons(order, m, rest); }
        ReadEntries(|tail| + 1, Entry(k, v) + more, acc);
        { EntryReads(k, v, more, |tail|, acc); }
        ReadEntries(|tail|, more, acc[k := v]);
        { ReadUndoesEntries(tail, m, rest, acc[k := v]); }
        Entries(PutAll(acc[k := v], tail, m), rest);
      }
    }
  }

  /** Reading a written header block gives the same map and leaves the rest, in whatever order it was written. */
  lemma {:induction false} HeaderMapRoundTrip(order: seq<uint8>, m: Headers, rest: seq<uint8>)
    requires IsOrder(order, m) && GoSlices(m)
    ensures ReadMap(EncodeMap(order, m) + rest) == Entries(m, rest)
  {
    var es := EncodeEntries(order, m) + rest;
    assert EncodeMap(order, m) + rest == PutUvarint(|order|) + es;
    KeysAreFew(order);
    UvarintRoundTrip(|order|, es);
    assert (PutUvarint(|order|) + es)[|PutUvarint(|order|)|..] == es;
    ReadUndoesEntries(order, m, rest, map[]);
    AllArePut(order, m);
  }

  lemma {:induction false} AllArePut(order: seq<uint8>, m: Headers)
    requires IsOrder(order, m)
    ensures PutAll(map[], order, m) == m
  {
    PutAllIs(map[], order, m);
    var all: Headers := map k | k in order :: m[k];
    assert all == m;
  }

  /** There are only 256 header keys. */
  lemma KeysAreFew(order: seq<uint8>)
    requires forall i, j :: 0 <= i < j < |order| ==> order[i] != order[j]
    ensures |order| <= 256
  {
    DistinctBelow(order, 256);
  }

  lemma {:induction false} DistinctBelow(s: seq<uint8>, bound: nat)
    requires forall i, j :: 0 <= i < j < |s| ==> s[i] != s[j]
    requires forall i :: 0 <= i < |s| ==> s[i] < bound
    ensures |s| <= bound
    decreases bound
  {
    assert s != [] ==> s[0] < bound;
    if bound > 0 {
      if i :| 0 <= i < |s| && s[i] == bound - 1 {
        var t := s[..i] + s[i + 1..];
        assert forall a, b :: 0 <= a < b < |t| ==> t[a] != t[b];
        DistinctBelow(t, bound - 1);
      } else {
        DistinctBelow(s, bound - 1);
      }
    }
  }

  // ---------------------------------------------------------------- the loops

  /** One header behind the `written` bytes already at `off`: the two space checks, then key, length and value. */
  method PutEntry(chunk: array<uint8>, off: nat, written: nat, k: uint8, v: seq<uint8>) returns (ok: bool, n: nat)
    requires off + written <= chunk.Length
    requires |v| < 0x8000_0000_0000_0000
    modifies chunk
    ensures chunk[..off] == old(chunk[..off])
    ensures ok <==> chunk.Length - off - written >= 10 && |Entry(k, v)| <= chunk.Length - off - written
    ensures ok ==> n == |Entry(k, v)| && chunk[off..off + written + n] == old(chunk[off..off + written]) + Entry(k, v)
  {
    var room := chunk.Length - off - written;
    if room < 10 {
      return false, 0;
    }
    var length := PutUvarint(|v|);
    NineBytes(|v|);
    if room - 1 - |length| < |v| {
      return false, 0;
    }
    var e := Entry(k, v);
    AppendTo(chunk, off, written, e);
    return true, |e|;
  }

  /** The encoder succeeds exactly when its space checks pass, and then the block is in place. */
  method WriteU8ToBytesMap(m: Headers, order: seq<uint8>, chunk: array<uint8>, off: nat) returns (ok: bool, written: nat)
    requires GoSlices(m)
    requires forall k :: k in order ==> k in m
    // the count is written unchecked, so the caller leaves room for it
    requires off + |PutUvarint(|order|)| <= chunk.Length
    modifies chunk
    ensures chunk[..off] == old(chunk[..off])
    ensures ok <==> Fits(order, m, chunk.Length - off - |PutUvarint(|order|)|)
    ensures ok ==> written == |EncodeMap(order, m)| && off + written <= chunk.Length
    ensures ok ==> chunk[off..off + written] == EncodeMap(order, m)
  {
    var count := PutUvarint(|order|);
    CopyInto(chunk, off, count);
    ok, written := PutEntries(chunk, off, |count|, m, order);
    written := |count| + written;
  }

  /** The loop over the headers, behind the `start` bytes already at `off`. */
  method PutEntries(chunk: array<uint8>, off: nat, start: nat, m: Headers, order: seq<uint8>) returns (ok: bool, n: nat)
    requires GoSlices(m) && off + start <= chunk.Length
    requires forall k :: k in order ==> k in m
    modifies chunk
    ensures chunk[..off] == old(chunk[..off])
    ensures ok <==> Fits(order, m, chunk.Length - off - start)
    ensures ok ==> off + start + n <= chunk.Length && chunk[off..off + start + n] == old(chunk[off..off + start]) + EncodeEntries(order, m)
  {
    n := 0;
    var rest := order;
    ghost var all := old(chunk[off..off + start]) + EncodeEntries(order, m);
    ghost var fits := Fits(order, m, chunk.Length - off - start);
    while rest != []
      invariant off + start + n <= chunk.Length && chunk[..off] == old(chunk[..off])
      invariant forall k :: k in rest ==> k in m
      invariant Left(all, fits, chunk[off..off + start + n], rest, m, chunk.Length - off - start - n)
      decreases |rest|
    {
      var fitted, size := PutNext(chunk, off, start + n, m, rest, all, fits);
      if !fitted {
        return false, 0;
      }
      n, rest := n + size, rest[1..];
    }
    assert chunk[off..off + start + n] + [] == chunk[off..off + start + n];
    ok := true;
  }

  /** With `block` written and `room` bytes left, the entries of `rest` complete `all`, and fit exactly if everything did. */
  ghost predicate Left(all: seq<uint8>, fits: bool, block: seq<uint8>, rest: seq<uint8>, m: Headers, room: int)
    requires forall k :: k in rest ==> k in m
  {
    block + EncodeEntries(rest, m) == all && (fits <==> Fits(rest, m, room))
  }

  lemma {:induction false} EntryMoves(all: seq<uint8>, fits: bool, block: seq<uint8>, rest: seq<uint8>, m: Headers, room: int)
    requires rest != [] && (forall k :: k in rest ==> k in m) && Left(all, fits, block, rest, m, room)
    ensures var e := Entry(rest[0], m[rest[0]]);
            && (room < 10 || |e| > room ==> !fits)
            && (room >= 10 && |e| <= room ==> Left(all, fits, block + e, rest[1..], m, room - |e|))
  {
    var e := Entry(rest[0], m[rest[0]]);
    assert block + (e + EncodeEntries(rest[1..], m)) == (block + e) + EncodeEntries(rest[1..], m);
  }

  /** One pass of the loop. */
  method PutNext(chunk: array<uint8>, off: nat, written: nat, m: Headers, rest: seq<uint8>, ghost all: seq<uint8>, ghost fits: bool)
    returns (ok: bool, n: nat)
    requires GoSlices(m) && off + written <= chunk.Length && rest != [] && forall k :: k in rest ==> k in m
    requires Left(all, fits, chunk[off..off + written], rest, m, chunk.Length - off - written)
    modifies chunk
    ensures chunk[..off] == old(chunk[..off])
    ensures !ok ==> !fits
    ensures ok ==> off + written + n <= chunk.Length
                   && Left(all, fits, chunk[off..off + written + n], rest[1..], m, chunk.Length - off - written - n)
  {
    EntryMoves(all, fits, chunk[off..off + written], rest, m, chunk.Length - off - written);
    ok, n := PutEntry(chunk, off, written, rest[0], m[rest[0]]);
  }

  lemma {:induction false} NineBytes(n: nat)
    requires n < 0x8000_0000_0000_0000
    ensures |PutUvarint(n)| <= 9
  {
    assert Pow128(3) == 128 * 128 * 128;
    assert Pow128(5) == 128 * 128 * Pow128(3);
    assert Pow128(7) == 128 * 128 * Pow128(5);
    assert Pow128(9) == 128 * 128 * Pow128(7);
    VarintLength(n, 9);
  }

  method ReadU8ToBytesMap(buf: seq<uint8>) returns (r: ReadResult)
    ensures r == ReadMap(buf)
  {
    var count := Uvarint(buf);
    if count.read < 1 {
      return Malformed;
    }
    var result: Headers := map[];
    var rest := buf[count.read..];
    var i := 0;
    while i < count.value
      invariant 0 <= i <= count.value
      invariant ReadEntries(count.value - i, rest, result) == ReadMap(buf)
    {
      if |rest| < 2 {
        return Malformed;
      }
      var len := Uvarint(rest[1..]);
      if len.read < 1 {
        return Malformed;
      }
      var body := rest[len.read + 1..];
      if len.value >= 0x8000_0000_0000_0000 {
        return Panics;
      }
      if |body| < len.value {
        return Malformed;
      }
      result, rest := result[rest[0] := body[..len.value]], body[len.value..];
      i := i + 1;
    }
    r := Entries(result, rest);
  }
}
