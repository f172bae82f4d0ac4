/**
 The compact chunk format: one flag byte, one size byte, then RTT, circuit id, sequence,
 headers, data and heartbeat. The image is built by Write, stamped in place twice on its
 way out, and taken apart by UnmarshallPacketPayload.

 A test `b & mask != 0` on a single-bit mask is written HasFlag: the quotient by the mask is odd.
 */
module ChunkCodec {
  import opened Bytes
  import opened HeaderMap
  import opened Messages
  import opened Varint

  const TERMINATOR_FLAG_MASK: uint8 := 8
  const RTT_FLAG_MASK: uint8 := 16
  const CHUNK_FLAG_MASK: uint8 := 32
  const HEADERS_FLAG_MASK: uint8 := 64
  const HEARTBEAT_FLAG_MASK: uint8 := 128
  const PAYLOAD_PROTOCOL_V1 := 1
  const MAX_CIRCUIT_ID := 15

  predicate HasFlag(b: uint8, mask: uint8)
    requires mask > 0
  {
    (b / mask) % 2 == 1
  }

  function OneIf(b: bool): uint8 {
    if b then 1 else 0
  }

  function FlagByte(terminator: bool, rtt: bool, chunked: bool, headers: bool, heartbeat: bool): uint8 {
    2 * PAYLOAD_PROTOCOL_V1 + 8 * OneIf(terminator) + 16 * OneIf(rtt) + 32 * OneIf(chunked)
    + 64 * OneIf(headers) + 128 * OneIf(heartbeat)
  }

  lemma FlagByteBits(terminator: bool, rtt: bool, chunked: bool, headers: bool, heartbeat: bool)
    ensures var b := FlagByte(terminator, rtt, chunked, headers, heartbeat);
            && b % 2 == 0
            && (b / 2) % 4 == PAYLOAD_PROTOCOL_V1
            && HasFlag(b, TERMINATOR_FLAG_MASK) == terminator
            && HasFlag(b, RTT_FLAG_MASK) == rtt
            && HasFlag(b, CHUNK_FLAG_MASK) == chunked
            && HasFlag(b, HEADERS_FLAG_MASK) == headers
            && HasFlag(b, HEARTBEAT_FLAG_MASK) == heartbeat
  {
  }

  /** What one pass of the Write loop puts into one chunk. */
  datatype Chunk = Chunk(
    circuitId: seq<uint8>,
    terminator: bool,
    sequence: nat,
    headers: Headers,
    order: seq<uint8>,
    chunked: bool,
    data: seq<uint8>,
    heartbeat: bool)

  /** Every fifth sequence number carries a round-trip stamp. */
  predicate IncludesRtt(sequence: nat) {
    sequence % 5 == 0
  }

  predicate WellFormed(c: Chunk) {
    IsOrder(c.order, c.headers) && GoSlices(c.headers) && c.sequence < TWO31
  }

  function HeaderBlock(order: seq<uint8>, headers: Headers): seq<uint8>
    requires IsOrder(order, headers)
  {
    if headers == map[] then []
    else
      EncodeMap(order, headers)
  }

  function Zeros(n: nat): (z: seq<uint8>)
    ensures |z| == n
  {
    seq(n, _ => 0)
  }

  function ChunkFlags(c: Chunk): uint8 {
    FlagByte(c.terminator, IncludesRtt(c.sequence), c.chunked, c.headers != map[], c.heartbeat)
  }

  /** The fields behind the optional RTT and before the optional heartbeat. */
  function Body(c: Chunk): seq<uint8>
    requires IsOrder(c.order, c.headers)
  {
    c.circuitId + (PutUvarint(c.sequence) + (HeaderBlock(c.order, c.headers) + c.data))
  }

  function Frame(c: Chunk, rtt: seq<uint8>, heartbeat: seq<uint8>): seq<uint8>
    requires IsOrder(c.order, c.headers)
  {
    // only the low four bits of the size byte hold the circuit id size
    [ChunkFlags(c), |c.circuitId| % 16] + rtt + Body(c) + heartbeat
  }

  function RttSize(c: Chunk): nat {
    if IncludesRtt(c.sequence) then 2 else 0
  }

  function HeartbeatSize(c: Chunk): nat {
    if c.heartbeat then 8 else 0
  }

  /** The chunk as Write leaves it: the two stamp fields are reserved, and hold anything. */
  ghost predicate IsImage(raw: seq<uint8>, c: Chunk)
    requires IsOrder(c.order, c.headers)
  {
    exists rtt, beat :: |rtt| == RttSize(c) && |beat| == HeartbeatSize(c) && raw == Frame(c, rtt, beat)
  }

  // ---------------------------------------------------------------- stamping

  function RttBytes(now: nat): seq<uint8> {
    [now % 256, (now / 256) % 256]
  }

  function StampRtt(raw: seq<uint8>, now: nat): (r: seq<uint8>)
    requires |raw| >= 2 && (HasFlag(raw[0], RTT_FLAG_MASK) ==> |raw| >= 4)
    ensures |r| == |raw|
  {
    if HasFlag(raw[0], RTT_FLAG_MASK) then raw[2 := now % 256][3 := (now / 256) % 256] else raw
  }

  predicate TakesHeartbeat(raw: seq<uint8>) {
    |raw| > 12 && HasFlag(raw[0], HEARTBEAT_FLAG_MASK)
  }

  function StampHeartbeat(raw: seq<uint8>, now: nat): (r: seq<uint8>)
    ensures |r| == |raw|
  {
    if TakesHeartbeat(raw) then raw[..|raw| - 8] + PutBigEndian(now, 8) else raw
  }

  /** Payload.Marshall on a raw image. */
  method StampRttInPlace(raw: array<uint8>, now: nat)
    requires raw.Length >= 2 && (HasFlag(raw[0], RTT_FLAG_MASK) ==> raw.Length >= 4)
    modifies raw
    ensures raw[..] == StampRtt(old(raw[..]), now)
  {
    if HasFlag(raw[0], RTT_FLAG_MASK) {
      raw[2] := now % 256;
      raw[3] := (now / 256) % 256;
    }
  }

  /** PayloadTransformer.Tx on a raw message body. */
  method StampHeartbeatInPlace(body: array<uint8>, now: nat)
    modifies body
    ensures body[..] == StampHeartbeat(old(body[..]), now)
  {
    if body.Length > 1 {
      if HasFlag(body[0], HEARTBEAT_FLAG_MASK) && body.Length > 12 {
        CopyInto(body, body.Length - 8, PutBigEndian(now, 8));
        assert body[..] == body[..body.Length - 8] + body[body.Length - 8..];
      }
    }
  }

  lemma FrameFlags(c: Chunk, rtt: seq<uint8>, beat: seq<uint8>)
    requires IsOrder(c.order, c.headers)
    ensures var raw := Frame(c, rtt, beat);
            && |raw| >= 2 + |rtt| + |beat|
            && HasFlag(raw[0], RTT_FLAG_MASK) == IncludesRtt(c.sequence)
            && HasFlag(raw[0], HEARTBEAT_FLAG_MASK) == c.heartbeat
  {
    FlagByteBits(c.terminator, IncludesRtt(c.sequence), c.chunked, c.headers != map[], c.heartbeat);
  }

  lemma SpliceRtt(head: seq<uint8>, rtt: seq<uint8>, tail: seq<uint8>, now: nat)
    requires |head| == 2 && |rtt| == 2
    ensures (head + rtt + tail)[2 := now % 256][3 := (now / 256) % 256] == head + RttBytes(now) + tail
  {
  }

  lemma StampRttOfFrame(c: Chunk, rtt: seq<uint8>, beat: seq<uint8>, now: nat)
    requires IsOrder(c.order, c.headers) && |rtt| == RttSize(c)
    ensures |Frame(c, rtt, beat)| >= 2 && (HasFlag(Frame(c, rtt, beat)[0], RTT_FLAG_MASK) ==> |Frame(c, rtt, beat)| >= 4)
    ensures StampRtt(Frame(c, rtt, beat), now) == Frame(c, if IncludesRtt(c.sequence) then RttBytes(now) else [], beat)
  {
    FrameFlags(c, rtt, beat);
    var head, tail := [ChunkFlags(c), |c.circuitId| % 16], Body(c) + beat;
    assert Frame(c, rtt, beat) == head + rtt + tail;
    if IncludesRtt(c.sequence) {
      SpliceRtt(head, rtt, tail, now);
      assert Frame(c, RttBytes(now), beat) == head + RttBytes(now) + tail;
    }
  }

  lemma {:induction false} StampHeartbeatOfFrame(c: Chunk, rtt: seq<uint8>, beat: seq<uint8>, now: nat)
    requires IsOrder(c.order, c.headers) && |beat| == HeartbeatSize(c)
    ensures StampHeartbeat(Frame(c, rtt, beat), now)
            == Frame(c, rtt, if c.heartbeat && |Frame(c, rtt, beat)| > 12 then PutBigEndian(now, 8) else beat)
  {
    FrameFlags(c, rtt, beat);
    if c.heartbeat {
      var raw := Frame(c, rtt, beat);
      assert raw[..|raw| - 8] == [ChunkFlags(c), |c.circuitId| % 16] + rtt + Body(c);
    }
  }

  /** Stamping fills exactly the two reserved fields and nothing else. */
  lemma StampedImage(raw: seq<uint8>, c: Chunk, now: nat, beat: nat) returns (rtt: seq<uint8>, heartbeat: seq<uint8>)
    requires IsOrder(c.order, c.headers) && IsImage(raw, c)
    ensures rtt == if IncludesRtt(c.sequence) then RttBytes(now) else []
    ensures |heartbeat| == HeartbeatSize(c)
    ensures c.heartbeat && |raw| > 12 ==> heartbeat == PutBigEndian(beat, 8)
    ensures |raw| >= 2 && (HasFlag(raw[0], RTT_FLAG_MASK) ==> |raw| >= 4)
    ensures StampHeartbeat(StampRtt(raw, now), beat) == Frame(c, rtt, heartbeat)
  {
    var rtt0, beat0 :| |rtt0| == RttSize(c) && |beat0| == HeartbeatSize(c) && raw == Frame(c, rtt0, beat0);
    rtt := if IncludesRtt(c.sequence) then RttBytes(now) else [];
    StampRttOfFrame(c, rtt0, beat0, now);
    StampHeartbeatOfFrame(c, rtt, beat0, beat);
    heartbeat := if c.heartbeat && |Frame(c, rtt, beat0)| > 12 then PutBigEndian(beat, 8) else beat0;
  }

  // ---------------------------------------------------------------- decoding

  datatype Decoded =
    | Packet(msg: Message)
    | Legacy          // bit 0 set: an ordinary channel message
    | Unsupported     // unknown version
    | BadHeaders
    | OutOfBounds     // a slice expression of the decoder panics

  function LittleEndian16(lo: uint8, hi: uint8): uint16 {
    lo + 256 * hi
  }

  function DropLast(s: seq<uint8>, n: nat): seq<uint8>
    requires n <= |s|
  {
    s[..|s| - n]
  }

  /** `heartbeatKey` is the channel library's own header key for heartbeats. */
  function UnmarshallPacketPayload(buf: seq<uint8>, heartbeatKey: int): Decoded {
    if |buf| < 1 then OutOfBounds
    else if buf[0] % 2 != 0 then Legacy
    else if (buf[0] / 2) % 4 != PAYLOAD_PROTOCOL_V1 then Unsupported
    else if |buf| < 2 then OutOfBounds
    else
      var hasRtt := HasFlag(buf[0], RTT_FLAG_MASK);
      var hasBeat := HasFlag(buf[0], HEARTBEAT_FLAG_MASK);
      var start := if hasRtt then 4 else 2;
      var end := if hasBeat then 8 else 0;
      if |buf| < start + end then OutOfBounds
      else
        var rtt := if hasRtt then LittleEndian16(buf[2], buf[3]) else 0;
        var beat := if hasBeat then BigEndian(buf[|buf| - 8..]) else 0;
        UnmarshallBody(buf, DropLast(buf, end)[start..], hasRtt, rtt, hasBeat, beat, heartbeatKey)
  }

  function UnmarshallBody(buf: seq<uint8>, rest: seq<uint8>, hasRtt: bool, rtt: uint16, hasBeat: bool, beat: nat, heartbeatKey: int): Decoded
    requires |buf| >= 2
  {
    var idSize := buf[1] % 16;
    if |rest| < idSize then OutOfBounds
    else
      var seqNo := Uvarint(rest[idSize..]);
      if seqNo.read < 0 then OutOfBounds
      else
        var tail := rest[idSize..][seqNo.read..];
        var block := if HasFlag(buf[0], HEADERS_FLAG_MASK) then ReadMap(tail) else Entries(map[], tail);
        match block
        case Malformed => BadHeaders
        case Panics => OutOfBounds
        case Entries(headers, data) =>
          var flags := Flags(chunk := HasFlag(buf[0], CHUNK_FLAG_MASK), originator := HasFlag(buf[0], TERMINATOR_FLAG_MASK));
          Packet(BuildMessage(rest[..idSize], seqNo.value, headers, data, flags, hasRtt, rtt, hasBeat, beat, buf, heartbeatKey))
  }

  function BuildMessage(circuitId: seq<uint8>, seqNo: nat, headers: Headers, data: seq<uint8>, flags: Flags,
                        hasRtt: bool, rtt: uint16, hasBeat: bool, beat: nat, raw: seq<uint8>, heartbeatKey: int): Message
  {
    var h0 := AddPayloadHeaders(map[], headers);
    var h1 := h0[HEADER_KEY_CIRCUIT_ID := Raw(circuitId)][HEADER_KEY_SEQUENCE := U64(seqNo)];
    var h2 := if hasBeat then h1[heartbeatKey := U64(beat)] else h1;
    var h3 := h2[HEADER_PAYLOAD_RAW := Raw(raw)];
    var h4 := if flags != NO_FLAGS then h3[HEADER_KEY_FLAGS := FlagWord(flags)] else h3;
    Message(CONTENT_TYPE_PAYLOAD, if hasRtt then h4[HEADER_KEY_RTT := U16(rtt)] else h4, data)
  }

  predicate LibraryKey(key: int) {
    !UserKey(key) && !Reserved(key)
  }

  lemma BuildKeepsHeaders(circuitId: seq<uint8>, seqNo: nat, headers: Headers, data: seq<uint8>, flags: Flags,
                          hasRtt: bool, rtt: uint16, hasBeat: bool, beat: nat, raw: seq<uint8>, heartbeatKey: int)
    requires LibraryKey(heartbeatKey)
    ensures UserHeaders(BuildMessage(circuitId, seqNo, headers, data, flags, hasRtt, rtt, hasBeat, beat, raw, heartbeatKey).headers) == headers
  {
    var h0 := AddPayloadHeaders(map[], headers);
    var h1 := h0[HEADER_KEY_CIRCUIT_ID := Raw(circuitId)][HEADER_KEY_SEQUENCE := U64(seqNo)];
    var h2 := if hasBeat then h1[heartbeatKey := U64(beat)] else h1;
    var h3 := h2[HEADER_PAYLOAD_RAW := Raw(raw)];
    var h4 := if flags != NO_FLAGS then h3[HEADER_KEY_FLAGS := FlagWord(flags)] else h3;
    UserHeadersOf(headers);
    OtherKeysKeepUserHeaders(h0, HEADER_KEY_CIRCUIT_ID, Raw(circuitId));
    OtherKeysKeepUserHeaders(h0[HEADER_KEY_CIRCUIT_ID := Raw(circuitId)], HEADER_KEY_SEQUENCE, U64(seqNo));
    OtherKeysKeepUserHeaders(h1, heartbeatKey, U64(beat));
    OtherKeysKeepUserHeaders(h2, HEADER_PAYLOAD_RAW, Raw(raw));
    OtherKeysKeepUserHeaders(h3, HEADER_KEY_FLAGS, FlagWord(flags));
    OtherKeysKeepUserHeaders(h4, HEADER_KEY_RTT, U16(rtt));
  }

  lemma BuildKeepsFields(circuitId: seq<uint8>, seqNo: nat, headers: Headers, data: seq<uint8>, flags: Flags,
                         hasRtt: bool, rtt: uint16, hasBeat: bool, beat: nat, raw: seq<uint8>, heartbeatKey: int)
    requires LibraryKey(heartbeatKey) && (!hasRtt ==> rtt == 0)
    ensures var h := BuildMessage(circuitId, seqNo, headers, data, flags, hasRtt, rtt, hasBeat, beat, raw, heartbeatKey).headers;
            && GetFlags(h) == flags && GetU16(h, HEADER_KEY_RTT) == rtt
            && HEADER_KEY_CIRCUIT_ID in h && h[HEADER_KEY_CIRCUIT_ID] == Raw(circuitId)
            && HEADER_KEY_SEQUENCE in h && h[HEADER_KEY_SEQUENCE] == U64(seqNo)
  {
    var h0 := AddPayloadHeaders(map[], headers);
    assert HEADER_KEY_FLAGS !in h0 && HEADER_KEY_RTT !in h0;
  }

  lemma FieldsMakePayload(m: Message, circuitId: seq<uint8>, seqNo: nat, headers: Headers, flags: Flags, rtt: uint16)
    requires seqNo < TWO31
    requires GetFlags(m.headers) == flags && GetU16(m.headers, HEADER_KEY_RTT) == rtt
    requires HEADER_KEY_CIRCUIT_ID in m.headers && m.headers[HEADER_KEY_CIRCUIT_ID] == Raw(circuitId)
    requires HEADER_KEY_SEQUENCE in m.headers && m.headers[HEADER_KEY_SEQUENCE] == U64(seqNo)
    requires UserHeaders(m.headers) == headers
    ensures UnmarshallPayload(m) == Ok(Payload(circuitId, flags, rtt, seqNo, headers, m.body))
  {
    assert ToI32(seqNo) == seqNo;
  }

  lemma MessageToPayload(circuitId: seq<uint8>, seqNo: nat, headers: Headers, data: seq<uint8>, flags: Flags,
                         hasRtt: bool, rtt: uint16, hasBeat: bool, beat: nat, raw: seq<uint8>, heartbeatKey: int)
    requires LibraryKey(heartbeatKey)
    requires seqNo < TWO31 && (!hasRtt ==> rtt == 0)
    ensures UnmarshallPayload(BuildMessage(circuitId, seqNo, headers, data, flags, hasRtt, rtt, hasBeat, beat, raw, heartbeatKey))
            == Ok(Payload(circuitId, flags, rtt, seqNo, headers, data))
  {
    var m := BuildMessage(circuitId, seqNo, headers, data, flags, hasRtt, rtt, hasBeat, beat, raw, heartbeatKey);
    BuildKeepsHeaders(circuitId, seqNo, headers, data, flags, hasRtt, rtt, hasBeat, beat, raw, heartbeatKey);
    BuildKeepsFields(circuitId, seqNo, headers, data, flags, hasRtt, rtt, hasBeat, beat, raw, heartbeatKey);
    FieldsMakePayload(m, circuitId, seqNo, headers, flags, rtt);
  }

  /** The payload a chunk stands for, with whatever stamp it was sent with. */
  function ChunkPayload(c: Chunk, rtt: uint16): Payload
    requires c.sequence < TWO31
  {
    Payload(c.circuitId, Flags(originator := c.terminator, chunk := c.chunked), rtt, c.sequence, c.headers, c.data)
  }

  lemma BodyReads(c: Chunk)
    requires WellFormed(c)
    ensures var rest := Body(c);
            var tail := rest[|c.circuitId|..];
            && rest[..|c.circuitId|] == c.circuitId
            && Uvarint(tail) == Scanned(c.sequence, |PutUvarint(c.sequence)|)
            && tail[|PutUvarint(c.sequence)|..] == HeaderBlock(c.order, c.headers) + c.data
            && (c.headers != map[] ==> ReadMap(tail[|PutUvarint(c.sequence)|..]) == Entries(c.headers, c.data))
  {
    var block := HeaderBlock(c.order, c.headers) + c.data;
    var rest := Body(c);
    assert rest[|c.circuitId|..] == PutUvarint(c.sequence) + block;
    UvarintRoundTrip(c.sequence, block);
    assert (PutUvarint(c.sequence) + block)[|PutUvarint(c.sequence)|..] == block;
    if c.headers != map[] {
      HeaderMapRoundTrip(c.order, c.headers, c.data);
    }
  }

  lemma FrameSlices(flags: uint8, size: uint8, rtt: seq<uint8>, body: seq<uint8>, heartbeat: seq<uint8>, buf: seq<uint8>)
    requires buf == [flags, size] + rtt + body + heartbeat
    ensures |buf| == 2 + |rtt| + |body| + |heartbeat| && buf[0] == flags && buf[1] == size
    ensures DropLast(buf, |heartbeat|)[2 + |rtt|..] == body
    ensures |rtt| == 2 ==> buf[2] == rtt[0] && buf[3] == rtt[1]
  {
    assert DropLast(buf, |heartbeat|) == [flags, size] + rtt + body;
  }

  lemma PacketPeels(buf: seq<uint8>, body: seq<uint8>, rttSize: nat, beatSize: nat, heartbeatKey: int)
    requires |buf| == 2 + rttSize + |body| + beatSize && buf[0] % 2 == 0 && (buf[0] / 2) % 4 == PAYLOAD_PROTOCOL_V1
    requires rttSize == (if HasFlag(buf[0], RTT_FLAG_MASK) then 2 else 0) && beatSize == (if HasFlag(buf[0], HEARTBEAT_FLAG_MASK) then 8 else 0)
    requires DropLast(buf, beatSize)[2 + rttSize..] == body
    ensures UnmarshallPacketPayload(buf, heartbeatKey)
            == UnmarshallBody(buf, body, rttSize == 2, if rttSize == 2 then LittleEndian16(buf[2], buf[3]) else 0,
                              beatSize == 8, if beatSize == 8 then BigEndian(buf[|buf| - 8..]) else 0, heartbeatKey)
  {
  }

  /** The frame of any flag byte that says truly which optional fields are there. */
  lemma PeelsWith(flags: uint8, size: uint8, rtt: seq<uint8>, body: seq<uint8>, heartbeat: seq<uint8>, buf: seq<uint8>, heartbeatKey: int)
    returns (stamp: uint16, beat: nat)
    requires buf == [flags, size] + rtt + body + heartbeat && flags % 2 == 0 && (flags / 2) % 4 == PAYLOAD_PROTOCOL_V1
    requires |rtt| == (if HasFlag(flags, RTT_FLAG_MASK) then 2 else 0) && |heartbeat| == (if HasFlag(flags, HEARTBEAT_FLAG_MASK) then 8 else 0)
    ensures stamp == if rtt == [] then 0 else LittleEndian16(rtt[0], rtt[1])
    ensures beat == if heartbeat == [] then 0 else BigEndian(heartbeat)
    ensures |buf| >= 2 && buf[0] == flags && buf[1] == size
    ensures UnmarshallPacketPayload(buf, heartbeatKey) == UnmarshallBody(buf, body, rtt != [], stamp, heartbeat != [], beat, heartbeatKey)
  {
    FrameSlices(flags, size, rtt, body, heartbeat, buf);
    PacketPeels(buf, body, |rtt|, |heartbeat|, heartbeatKey);
    stamp := if rtt == [] then 0 else LittleEndian16(rtt[0], rtt[1]);
    beat := if heartbeat != [] then BigEndian(buf[|buf| - 8..]) else 0;
  }

  /** The flag byte says what the chunk holds. */
  predicate Describes(flags: uint8, c: Chunk) {
    && flags % 2 == 0 && (flags / 2) % 4 == PAYLOAD_PROTOCOL_V1
    && HasFlag(flags, TERMINATOR_FLAG_MASK) == c.terminator && HasFlag(flags, CHUNK_FLAG_MASK) == c.chunked
    && HasFlag(flags, HEADERS_FLAG_MASK) == (c.headers != map[])
    && HasFlag(flags, RTT_FLAG_MASK) == IncludesRtt(c.sequence) && HasFlag(flags, HEARTBEAT_FLAG_MASK) == c.heartbeat
  }

  lemma ChunkFlagsDescribe(c: Chunk)
    ensures Describes(ChunkFlags(c), c)
  {
    FlagByteBits(c.terminator, IncludesRtt(c.sequence), c.chunked, c.headers != map[], c.heartbeat);
  }

  lemma BodyDecodes(c: Chunk, buf: seq<uint8>, stamp: uint16, beat: nat, heartbeatKey: int)
    requires WellFormed(c) && |c.circuitId| <= MAX_CIRCUIT_ID
    requires |buf| >= 2 && buf[1] % 16 == |c.circuitId|
    requires HasFlag(buf[0], TERMINATOR_FLAG_MASK) == c.terminator && HasFlag(buf[0], CHUNK_FLAG_MASK) == c.chunked
    requires HasFlag(buf[0], HEADERS_FLAG_MASK) == (c.headers != map[])
    ensures UnmarshallBody(buf, Body(c), IncludesRtt(c.sequence), stamp, c.heartbeat, beat, heartbeatKey)
            == Packet(BuildMessage(c.circuitId, c.sequence, c.headers, c.data, Flags(originator := c.terminator, chunk := c.chunked),
                                   IncludesRtt(c.sequence), stamp, c.heartbeat, beat, buf, heartbeatKey))
  {
    BodyReads(c);
    if c.headers == map[] {
      assert HeaderBlock(c.order, c.headers) + c.data == c.data;
    }
  }

  lemma BodyToPayload(c: Chunk, buf: seq<uint8>, stamp: uint16, beat: nat, heartbeatKey: int)
    requires WellFormed(c) && |c.circuitId| <= MAX_CIRCUIT_ID && LibraryKey(heartbeatKey)
    requires |buf| >= 2 && buf[1] % 16 == |c.circuitId| && (!IncludesRtt(c.sequence) ==> stamp == 0)
    requires HasFlag(buf[0], TERMINATOR_FLAG_MASK) == c.terminator && HasFlag(buf[0], CHUNK_FLAG_MASK) == c.chunked
    requires HasFlag(buf[0], HEADERS_FLAG_MASK) == (c.headers != map[])
    ensures var r := UnmarshallBody(buf, Body(c), IncludesRtt(c.sequence), stamp, c.heartbeat, beat, heartbeatKey);
            r.Packet? && UnmarshallPayload(r.msg) == Ok(ChunkPayload(c, stamp))
  {
    BodyDecodes(c, buf, stamp, beat, heartbeatKey);
    MessageToPayload(c.circuitId, c.sequence, c.headers, c.data, Flags(originator := c.terminator, chunk := c.chunked),
                     IncludesRtt(c.sequence), stamp, c.heartbeat, beat, buf, heartbeatKey);
  }

  /** The outer fields come apart first; what is left is the body. */
  lemma DescribedPeels(flags: uint8, c: Chunk, rtt: seq<uint8>, heartbeat: seq<uint8>, buf: seq<uint8>, heartbeatKey: int)
    returns (stamp: uint16, beat: nat)
    requires WellFormed(c) && |c.circuitId| <= MAX_CIRCUIT_ID && Describes(flags, c)
    requires |rtt| == RttSize(c) && |heartbeat| == HeartbeatSize(c)
    requires buf == [flags, |c.circuitId|] + rtt + Body(c) + heartbeat
    ensures |buf| >= 2 && buf[0] == flags && buf[1] == |c.circuitId|
    ensures stamp == if rtt == [] then 0 else LittleEndian16(rtt[0], rtt[1])
    ensures beat == if heartbeat == [] then 0 else BigEndian(heartbeat)
    ensures UnmarshallPacketPayload(buf, heartbeatKey)
            == UnmarshallBody(buf, Body(c), IncludesRtt(c.sequence), stamp, c.heartbeat, beat, heartbeatKey)
  {
    stamp, beat := PeelsWith(flags, |c.circuitId|, rtt, Body(c), heartbeat, buf, heartbeatKey);
  }

  lemma SmallSize(n: nat)
    requires n <= MAX_CIRCUIT_ID
    ensures n % 16 == n
  {
  }

  lemma DescribedDecodes(flags: uint8, c: Chunk, rtt: seq<uint8>, heartbeat: seq<uint8>, buf: seq<uint8>, heartbeatKey: int)
    requires WellFormed(c) && |c.circuitId| <= MAX_CIRCUIT_ID && LibraryKey(heartbeatKey) && Describes(flags, c)
    requires |rtt| == RttSize(c) && |heartbeat| == HeartbeatSize(c)
    requires buf == [flags, |c.circuitId|] + rtt + Body(c) + heartbeat
    ensures var r := UnmarshallPacketPayload(buf, heartbeatKey);
            r.Packet? && UnmarshallPayload(r.msg) == Ok(ChunkPayload(c, if rtt == [] then 0 else LittleEndian16(rtt[0], rtt[1])))
  {
    var stamp, beat := DescribedPeels(flags, c, rtt, heartbeat, buf, heartbeatKey);
    SmallSize(|c.circuitId|);
    BodyToPayload(c, buf, stamp, beat, heartbeatKey);
  }

  lemma FrameDecodes(c: Chunk, rtt: seq<uint8>, heartbeat: seq<uint8>, heartbeatKey: int)
    requires WellFormed(c) && |c.circuitId| <= MAX_CIRCUIT_ID && LibraryKey(heartbeatKey)
    requires |rtt| == RttSize(c) && |heartbeat| == HeartbeatSize(c)
    ensures var r := UnmarshallPacketPayload(Frame(c, rtt, heartbeat), heartbeatKey);
            r.Packet? && UnmarshallPayload(r.msg) == Ok(ChunkPayload(c, if rtt == [] then 0 else LittleEndian16(rtt[0], rtt[1])))
  {
    ChunkFlagsDescribe(c);
    assert |c.circuitId| % 16 == |c.circuitId|;
    DescribedDecodes(ChunkFlags(c), c, rtt, heartbeat, Frame(c, rtt, heartbeat), heartbeatKey);
  }

  lemma StampIsLow16(now: nat)
    ensures LittleEndian16(now % 256, (now / 256) % 256) == ToU16(now)
  {
    var q := now / 256;
    assert now == 256 * q + now % 256 && q == 256 * (q / 256) + q % 256;
  }

  /**
   Encode, stamp twice, decode: the receiver sees the same circuit id, sequence, headers,
   data, chunk flag and originator, and the RTT field holds the low 16 bits of the send time.
   */
  lemma ChunkRoundTrip(raw: seq<uint8>, c: Chunk, now: nat, beat: nat, heartbeatKey: int)
    requires WellFormed(c) && |c.circuitId| <= MAX_CIRCUIT_ID && LibraryKey(heartbeatKey)
    requires IsImage(raw, c)
    ensures |raw| >= 2 && (HasFlag(raw[0], RTT_FLAG_MASK) ==> |raw| >= 4)
    ensures var r := UnmarshallPacketPayload(StampHeartbeat(StampRtt(raw, now), beat), heartbeatKey);
            r.Packet? && UnmarshallPayload(r.msg) == Ok(ChunkPayload(c, if IncludesRtt(c.sequence) then ToU16(now) else 0))
  {
    var rtt, heartbeat := StampedImage(raw, c, now, beat);
    FrameDecodes(c, rtt, heartbeat, heartbeatKey);
    StampIsLow16(now);
  }

  lemma BuiltHeartbeat(c: Chunk, stamp: uint16, beat: nat, buf: seq<uint8>, heartbeatKey: int)
    requires LibraryKey(heartbeatKey) && c.sequence < TWO31
    ensures var h := BuildMessage(c.circuitId, c.sequence, c.headers, c.data, Flags(originator := c.terminator, chunk := c.chunked),
                                  IncludesRtt(c.sequence), stamp, c.heartbeat, beat, buf, heartbeatKey).headers;
            if c.heartbeat then heartbeatKey in h && h[heartbeatKey] == U64(beat) else heartbeatKey !in h
  {
  }

  lemma {:induction false} EightBytesHold(beat: nat)
    requires beat < TWO64
    ensures BigEndian(PutBigEndian(beat, 8)) == beat
  {
    assert Pow256(2) == 256 * 256;
    assert Pow256(4) == 256 * 256 * Pow256(2);
    assert Pow256(6) == 256 * 256 * Pow256(4);
    assert Pow256(8) == 256 * 256 * Pow256(6) == TWO64;
    BigEndianRoundTrip(beat, 8);
  }

  /** A chunk with a heartbeat field and more than twelve bytes brings its stamp along, one without the field brings none. */
  lemma HeartbeatArrives(raw: seq<uint8>, c: Chunk, now: nat, beat: nat, heartbeatKey: int)
    requires WellFormed(c) && |c.circuitId| <= MAX_CIRCUIT_ID && LibraryKey(heartbeatKey) && beat < TWO64
    requires IsImage(raw, c)
    ensures |raw| >= 2 && (HasFlag(raw[0], RTT_FLAG_MASK) ==> |raw| >= 4)
    ensures var r := UnmarshallPacketPayload(StampHeartbeat(StampRtt(raw, now), beat), heartbeatKey);
            && r.Packet? && (heartbeatKey in r.msg.headers <==> c.heartbeat)
            && (c.heartbeat && |raw| > 12 ==> r.msg.headers[heartbeatKey] == U64(beat))
  {
    var rtt, heartbeat := StampedImage(raw, c, now, beat);
    var buf := Frame(c, rtt, heartbeat);
    ChunkFlagsDescribe(c);
    SmallSize(|c.circuitId|);
    var stamp, decoded := DescribedPeels(ChunkFlags(c), c, rtt, heartbeat, buf, heartbeatKey);
    BodyDecodes(c, buf, stamp, decoded, heartbeatKey);
    BuiltHeartbeat(c, stamp, decoded, buf, heartbeatKey);
    EightBytesHold(beat);
  }

  /**
   The four-bit size field is exactly what limits circuit ids: a longer id never comes back,
   whatever the rest of the chunk holds.
   */
  lemma CircuitIdLimit(raw: seq<uint8>, c: Chunk, now: nat, beat: nat, heartbeatKey: int)
    requires WellFormed(c) && LibraryKey(heartbeatKey)
    requires IsImage(raw, c)
    ensures |raw| >= 2 && (HasFlag(raw[0], RTT_FLAG_MASK) ==> |raw| >= 4)
    ensures var r := UnmarshallPacketPayload(StampHeartbeat(StampRtt(raw, now), beat), heartbeatKey);
            (r.Packet? && UnmarshallPayload(r.msg).Ok? && UnmarshallPayload(r.msg).value.circuitId == c.circuitId)
            <==> |c.circuitId| <= MAX_CIRCUIT_ID
  {
    var _, _ := StampedImage(raw, c, now, beat);
    if |c.circuitId| <= MAX_CIRCUIT_ID {
      ChunkRoundTrip(raw, c, now, beat, heartbeatKey);
    } else {
      DecodedIdIsShort(StampHeartbeat(StampRtt(raw, now), beat), heartbeatKey);
    }
  }

  lemma DecodedIdIsShort(buf: seq<uint8>, heartbeatKey: int)
    requires LibraryKey(heartbeatKey)
    ensures var r := UnmarshallPacketPayload(buf, heartbeatKey);
            r.Packet? && UnmarshallPayload(r.msg).Ok? ==> |UnmarshallPayload(r.msg).value.circuitId| <= MAX_CIRCUIT_ID
  {
  }

  // ---------------------------------------------------------------- the bytes on the wire

  /** A chunk of one data byte, numbered five, from the terminator, stamped at 0x0102, byte by byte. */
  lemma {:induction false} SmallChunkBytes(id: uint8, data: uint8, reserved: seq<uint8>)
    requires |reserved| == 2
    ensures var c := Chunk([id], true, 5, map[], [], false, [data], false);
            var raw := Frame(c, reserved, []);
            |raw| >= 4 && StampRtt(raw, 0x0102) == [0x1a, 1, 2, 1, id, 5, data]
  {
    var c := Chunk([id], true, 5, map[], [], false, [data], false);
    var raw := Frame(c, reserved, []);
    assert raw == [0x1a, 1, reserved[0], reserved[1], id, 5, data];
  }

  /** A later chunk of a message, numbered 301, with room for a heartbeat stamped at 0x0102. */
  lemma {:induction false} BeatingChunkBytes(id: uint8, a: uint8, b: uint8, reserved: seq<uint8>)
    requires |reserved| == 8
    ensures var c := Chunk([id], false, 301, map[], [], true, [a, b], true);
            StampHeartbeat(Frame(c, [], reserved), 0x0102) == [0xa2, 1, id, 0xad, 2, a, b, 0, 0, 0, 0, 0, 0, 1, 2]
  {
    var c := Chunk([id], false, 301, map[], [], true, [a, b], true);
    var raw := Frame(c, [], reserved);
    assert PutUvarint(301) == [0xad] + PutUvarint(2);
    assert raw[..7] == [0xa2, 1, id, 0xad, 2, a, b];
    EightBytes();
  }

  lemma {:induction false} EightBytes()
    ensures PutBigEndian(0x0102, 8) == [0, 0, 0, 0, 0, 0, 1, 2]
  {
    assert PutBigEndian(0, 6) == [0, 0, 0, 0, 0, 0] by {
      assert PutBigEndian(0, 3) == [0, 0, 0];
      assert PutBigEndian(0, 4) == [0, 0, 0, 0];
      assert PutBigEndian(0, 5) == [0, 0, 0, 0, 0];
    }
    assert PutBigEndian(1, 7) == PutBigEndian(0, 6) + [1];
  }
}
