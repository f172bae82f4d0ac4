/**
 Payloads, acknowledgements and the two ways they are put into channel messages.
 The channel library itself is not part of this model: a message is a content type, a map
 of typed headers and a body, and the library's typed getters return what was put. A flag
 word is carried as the record of its bits, which FlagWordRoundTrip shows is the same thing.
 */
module Messages {
  import opened Bytes

  // ---------------------------------------------------------------- flags

  const PAYLOAD_FLAG_CIRCUIT_END: bv32 := 1
  const PAYLOAD_FLAG_ORIGINATOR: bv32 := 2
  const PAYLOAD_FLAG_CIRCUIT_START: bv32 := 4
  const PAYLOAD_FLAG_CHUNK: bv32 := 8
  const PAYLOAD_FLAG_RETRANSMIT: bv32 := 16
  const PAYLOAD_FLAG_EOF: bv32 := 32
  const PAYLOAD_FLAG_WRITE_FAILED: bv32 := 64

  datatype Originator = Initiator | Terminator {
    function Invert(): Originator {
      if this == Initiator then Terminator else Initiator
    }
  }

  predicate IsFlagSet(flags: bv32, flag: bv32) {
    flags & flag == flag
  }

  function SetPayloadFlag(flags: bv32, flag: bv32): bv32 {
    flags | flag
  }

  function SetOriginatorFlag(flags: bv32, originator: Originator): bv32 {
    if originator == Initiator then !PAYLOAD_FLAG_ORIGINATOR & flags
    else PAYLOAD_FLAG_ORIGINATOR | flags
  }

  function GetOriginator(flags: bv32): Originator {
    if IsFlagSet(flags, PAYLOAD_FLAG_ORIGINATOR) then Terminator else Initiator
  }

  /** The flag word one boolean a flag; `Word` is the wire form. */
  datatype Flags = Flags(
    circuitEnd: bool := false,
    originator: bool := false,
    circuitStart: bool := false,
    chunk: bool := false,
    retransmit: bool := false,
    eof: bool := false,
    writeFailed: bool := false)

  const NO_FLAGS := Flags()

  function Bit(b: bool, flag: bv32): bv32 {
    if b then flag else 0
  }

  function Word(f: Flags): bv32 {
    Bit(f.originator, PAYLOAD_FLAG_ORIGINATOR) | OtherBits(f)
  }

  /** Everything but the originator bit. */
  function OtherBits(f: Flags): bv32 {
    Bit(f.circuitEnd, PAYLOAD_FLAG_CIRCUIT_END)
    | Bit(f.circuitStart, PAYLOAD_FLAG_CIRCUIT_START) | Bit(f.chunk, PAYLOAD_FLAG_CHUNK)
    | Bit(f.retransmit, PAYLOAD_FLAG_RETRANSMIT) | Bit(f.eof, PAYLOAD_FLAG_EOF)
    | Bit(f.writeFailed, PAYLOAD_FLAG_WRITE_FAILED)
  }

  function ReadWord(w: bv32): Flags {
    Flags(IsFlagSet(w, PAYLOAD_FLAG_CIRCUIT_END), IsFlagSet(w, PAYLOAD_FLAG_ORIGINATOR),
          IsFlagSet(w, PAYLOAD_FLAG_CIRCUIT_START), IsFlagSet(w, PAYLOAD_FLAG_CHUNK),
          IsFlagSet(w, PAYLOAD_FLAG_RETRANSMIT), IsFlagSet(w, PAYLOAD_FLAG_EOF),
          IsFlagSet(w, PAYLOAD_FLAG_WRITE_FAILED))
  }

  /** The seven flags are independent bits: a word read back gives the same flags, and only no flag is zero. */
  lemma FlagWordRoundTrip(f: Flags)
    ensures ReadWord(Word(f)) == f
    ensures Word(f) == 0 <==> f == NO_FLAGS
  {
  }

  lemma ChunkSetter(f: Flags)
    ensures SetPayloadFlag(Word(f), PAYLOAD_FLAG_CHUNK) == Word(f.(chunk := true))
  {
  }

  lemma RetransmitSetter(f: Flags)
    ensures SetPayloadFlag(Word(f), PAYLOAD_FLAG_RETRANSMIT) == Word(f.(retransmit := true))
  {
  }

  /** Setting a flag is the same on words and on flags, for the two flags that are set this way. */
  lemma FlagSetters(f: Flags)
    ensures SetPayloadFlag(Word(f), PAYLOAD_FLAG_CHUNK) == Word(f.(chunk := true))
    ensures SetPayloadFlag(Word(f), PAYLOAD_FLAG_RETRANSMIT) == Word(f.(retransmit := true))
  {
    ChunkSetter(f);
    RetransmitSetter(f);
  }

  lemma OtherBitsStayClear(f: Flags)
    ensures OtherBits(f) & PAYLOAD_FLAG_ORIGINATOR == 0
  {
  }

  lemma ClearBit(a: bv32, bit: bv32)
    requires a & bit == 0
    ensures !bit & (bit | a) == a && !bit & (0 | a) == 0 | a
    ensures bit | (bit | a) == bit | a && bit | (0 | a) == bit | a && 0 | a == a
  {
  }

  /** So is setting the originator, which is then read back whatever it was before. */
  lemma OriginatorSetter(f: Flags, o: Originator)
    ensures SetOriginatorFlag(Word(f), o) == Word(f.(originator := o == Terminator))
    ensures GetOriginator(SetOriginatorFlag(Word(f), o)) == o
    ensures o.Invert() != o && o.Invert().Invert() == o
  {
    var g := f.(originator := o == Terminator);
    assert OtherBits(g) == OtherBits(f);
    OtherBitsStayClear(f);
    ClearBit(OtherBits(f), PAYLOAD_FLAG_ORIGINATOR);
    FlagWordRoundTrip(g);
  }

  // ---------------------------------------------------------------- payloads and messages

  type Headers = map<uint8, seq<uint8>>

  datatype Payload = Payload(
    circuitId: seq<uint8>,
    flags: Flags,
    rtt: uint16,
    sequence: int32,
    headers: Headers,
    data: seq<uint8>)

  datatype Acknowledgement = Acknowledgement(
    circuitId: seq<uint8>,
    flags: Flags,
    recvBufferSize: uint32,
    rtt: uint16,
    sequence: seq<int32>)

  datatype HeaderValue =
    | Raw(bytes: seq<uint8>)
    | U16(u16: uint16)
    | U32(u32: uint32)
    | U64(u64: nat)
    | FlagWord(flags: Flags)

  datatype Message = Message(contentType: int, headers: map<int, HeaderValue>, body: seq<uint8>)

  datatype Result<+T> = Ok(value: T) | Err

  const MIN_HEADER_KEY := 2000
  const MAX_HEADER_KEY := MIN_HEADER_KEY + 255
  const HEADER_KEY_CIRCUIT_ID := 2256
  const HEADER_KEY_SEQUENCE := 2257
  const HEADER_KEY_FLAGS := 2258
  const HEADER_KEY_RECV_BUFFER_SIZE := 2259
  const HEADER_KEY_RTT := 2260
  const HEADER_PAYLOAD_RAW := 2261
  const CONTENT_TYPE_PAYLOAD := 1100
  const CONTENT_TYPE_ACKNOWLEDGEMENT := 1101

  /** The message keys the format keeps for itself. */
  predicate Reserved(key: int) {
    HEADER_KEY_CIRCUIT_ID <= key <= HEADER_PAYLOAD_RAW
  }

  predicate UserKey(key: int) {
    MIN_HEADER_KEY <= key <= MAX_HEADER_KEY
  }

  /** The message key of a payload header. */
  function MsgKey(k: uint8): (key: int)
    ensures UserKey(key) && !Reserved(key)
  {
    MIN_HEADER_KEY + k
  }

  function HeaderOf(key: int): uint8
    requires UserKey(key)
  {
    key - MIN_HEADER_KEY
  }

  /** User headers move to keys 2000-2255 and leave every other header as it was. */
  function AddPayloadHeaders(msg: map<int, HeaderValue>, headers: Headers): map<int, HeaderValue> {
    msg + map key | MIN_HEADER_KEY <= key <= MAX_HEADER_KEY && UserKey(key) && HeaderOf(key) in headers :: Raw(headers[HeaderOf(key)])
  }

  /** Go's `uint64(x)` of an int32 sign-extends. */
  function ToU64(x: int32): nat {
    if x < 0 then x + TWO64 else x
  }

  /** The header-keyed form, used when a payload carries no raw image. */
  function MarshallPayload(p: Payload, now: nat): Message {
    var h0 := AddPayloadHeaders(map[], p.headers);
    var h1 := h0[HEADER_KEY_CIRCUIT_ID := Raw(p.circuitId)];
    var h2 := if p.flags != NO_FLAGS then h1[HEADER_KEY_FLAGS := FlagWord(p.flags)] else h1;
    var h3 := h2[HEADER_KEY_SEQUENCE := U64(ToU64(p.sequence))];
    Message(CONTENT_TYPE_PAYLOAD, h3[HEADER_KEY_RTT := U16(ToU16(now))], p.data)
  }

  /** The user headers of a message, re-keyed to 0-255. */
  function UserHeaders(msg: map<int, HeaderValue>): Headers {
    map k: uint8 | MsgKey(k) in msg && msg[MsgKey(k)].Raw? :: msg[MsgKey(k)].bytes
  }

  function GetFlags(msg: map<int, HeaderValue>): Flags {
    if HEADER_KEY_FLAGS in msg && msg[HEADER_KEY_FLAGS].FlagWord? then msg[HEADER_KEY_FLAGS].flags else NO_FLAGS
  }

  function GetU16(msg: map<int, HeaderValue>, key: int): uint16 {
    if key in msg && msg[key].U16? then msg[key].u16 else 0
  }

  function UnmarshallPayload(msg: Message): Result<Payload> {
    var h := msg.headers;
    if HEADER_KEY_CIRCUIT_ID !in h || !h[HEADER_KEY_CIRCUIT_ID].Raw? then Err
    else if HEADER_KEY_SEQUENCE !in h || !h[HEADER_KEY_SEQUENCE].U64? then Err
    else Ok(Payload(h[HEADER_KEY_CIRCUIT_ID].bytes, GetFlags(h), GetU16(h, HEADER_KEY_RTT),
                    ToI32(h[HEADER_KEY_SEQUENCE].u64), UserHeaders(h), msg.body))
  }

  /** Of a message with nothing else in it, the user headers are exactly the ones put in. */
  lemma UserHeadersOf(headers: Headers)
    ensures UserHeaders(AddPayloadHeaders(map[], headers)) == headers
  {
    var u, full := UserHeaders(AddPayloadHeaders(map[], headers)), AddPayloadHeaders(map[], headers);
    forall k: uint8 ensures (k in u <==> k in headers) && (k in u ==> u[k] == headers[k]) {
      assert HeaderOf(MsgKey(k)) == k;
      assert MsgKey(k) in full <==> k in headers;
    }
  }

  /** No reserved or library key is read as a user header: keys 2000-2255 and 2256-2261 never collide. */
  lemma OtherKeysKeepUserHeaders(msg: map<int, HeaderValue>, key: int, v: HeaderValue)
    requires !UserKey(key)
    ensures UserHeaders(msg[key := v]) == UserHeaders(msg)
  {
    var u, w := UserHeaders(msg[key := v]), UserHeaders(msg);
    forall k: uint8 ensures (k in u <==> k in w) && (k in u ==> u[k] == w[k]) {
      assert MsgKey(k) != key;
    }
  }

  lemma MarshallKeepsHeaders(p: Payload, now: nat)
    ensures UserHeaders(MarshallPayload(p, now).headers) == p.headers
  {
    var h0 := AddPayloadHeaders(map[], p.headers);
    var h1 := h0[HEADER_KEY_CIRCUIT_ID := Raw(p.circuitId)];
    var h2 := if p.flags != NO_FLAGS then h1[HEADER_KEY_FLAGS := FlagWord(p.flags)] else h1;
    var h3 := h2[HEADER_KEY_SEQUENCE := U64(ToU64(p.sequence))];
    UserHeadersOf(p.headers);
    OtherKeysKeepUserHeaders(h0, HEADER_KEY_CIRCUIT_ID, Raw(p.circuitId));
    OtherKeysKeepUserHeaders(h1, HEADER_KEY_FLAGS, FlagWord(p.flags));
    OtherKeysKeepUserHeaders(h2, HEADER_KEY_SEQUENCE, U64(ToU64(p.sequence)));
    OtherKeysKeepUserHeaders(h3, HEADER_KEY_RTT, U16(ToU16(now)));
  }

  lemma MarshallKeepsFlags(p: Payload, now: nat)
    ensures GetFlags(MarshallPayload(p, now).headers) == p.flags
  {
    assert HEADER_KEY_FLAGS !in AddPayloadHeaders(map[], p.headers);
  }

  /** Header-keyed payload round trip: only the RTT changes, to the 16-bit send time. */
  lemma PayloadMessageRoundTrip(p: Payload, now: nat)
    ensures UnmarshallPayload(MarshallPayload(p, now)) == Ok(p.(rtt := ToU16(now)))
  {
    MarshallKeepsHeaders(p, now);
    MarshallKeepsFlags(p, now);
    SignExtendRoundTrip(p.sequence);
  }

  /** `int32(uint64(seq))` gives a negative sequence number back as well. */
  lemma SignExtendRoundTrip(x: int32)
    ensures ToI32(ToU64(x)) == x
  {
    assert TWO64 == TWO32 * TWO32;
    ModShift(x, TWO32);
  }

  // ---------------------------------------------------------------- acknowledgements

  function EncodeSequence(s: seq<int32>): (r: seq<uint8>)
    ensures |r| == 4 * |s|
  {
    if s == [] then [] else EncodeSequence(s[..|s| - 1]) + PutBigEndian(ToU32(s[|s| - 1]), 4)
  }

  /** The first `n` groups of four bytes. */
  function DecodeWords(data: seq<uint8>, n: nat): seq<int32>
    requires |data| == 4 * n
  {
    if n == 0 then [] else DecodeWords(data[..4 * (n - 1)], n - 1) + [ToI32(BigEndian(data[4 * (n - 1)..]))]
  }

  /** Groups of four bytes, or an error when the length is not a multiple of four. */
  function DecodeSequence(data: seq<uint8>): Result<seq<int32>> {
    if |data| % 4 != 0 then Err else Ok(DecodeWords(data, |data| / 4))
  }

  method MarshallSequence(sequence: seq<int32>) returns (buf: seq<uint8>)
    ensures buf == EncodeSequence(sequence)
  {
    buf := [];
    for i := 0 to |sequence|
      invariant buf == EncodeSequence(sequence[..i])
    {
      assert sequence[..i + 1][..i] == sequence[..i];
      buf := buf + PutBigEndian(ToU32(sequence[i]), 4);
    }
    assert sequence[..|sequence|] == sequence;
  }

  method UnmarshallSequence(data: seq<uint8>) returns (r: Result<seq<int32>>)
    ensures r == DecodeSequence(data)
  {
    if |data| % 4 != 0 {
      return Err;
    }
    var s := TakeWords(data, |data| / 4);
    r := Ok(s);
  }

  method TakeWords(data: seq<uint8>, n: nat) returns (s: seq<int32>)
    requires |data| == 4 * n
    ensures s == DecodeWords(data, n)
  {
    s := [];
    for i := 0 to n
      invariant s == DecodeWords(data[..4 * i], i)
    {
      assert data[..4 * (i + 1)][..4 * i] == data[..4 * i];
      assert data[..4 * (i + 1)][4 * i..] == data[4 * i..4 * i + 4];
      s := s + [ToI32(BigEndian(data[4 * i..4 * i + 4]))];
    }
    assert data[..4 * n] == data;
  }

  lemma SequenceWordRoundTrip(x: int32)
    ensures ToI32(BigEndian(PutBigEndian(ToU32(x), 4))) == x
  {
    assert Pow256(2) == 256 * 256;
    assert Pow256(4) == 256 * 256 * Pow256(2);
    BigEndianRoundTrip(ToU32(x), 4);
  }

  /** One more group of four bytes is one more number. */
  lemma {:induction false} DecodeSnoc(front: seq<uint8>, n: nat, word: seq<uint8>)
    requires |front| == 4 * n && |word| == 4
    ensures DecodeWords(front + word, n + 1) == DecodeWords(front, n) + [ToI32(BigEndian(word))]
  {
    var data := front + word;
    assert data[..4 * n] == front;
    assert data[4 * n..] == word;
  }

  lemma {:induction false} WordsRoundTrip(s: seq<int32>)
    ensures DecodeWords(EncodeSequence(s), |s|) == s
  {
    if s != [] {
      var front, last := s[..|s| - 1], s[|s| - 1];
      WordsRoundTrip(front);
      SequenceWordRoundTrip(last);
      DecodeSnoc(EncodeSequence(front), |front|, PutBigEndian(ToU32(last), 4));
      assert s == front + [last];
    }
  }

  lemma FourTimes(n: nat)
    ensures (4 * n) % 4 == 0 && (4 * n) / 4 == n
  {
  }

  /** Every list of sequence numbers, negative ones included, survives the ack body. */
  lemma {:induction false} SequenceRoundTrip(s: seq<int32>)
    ensures DecodeSequence(EncodeSequence(s)) == Ok(s)
  {
    FourTimes(|s|);
    WordsRoundTrip(s);
  }

  function MarshallAck(ack: Acknowledgement): Message {
    var h0: map<int, HeaderValue> := map[HEADER_KEY_RTT := U16(ack.rtt), HEADER_KEY_CIRCUIT_ID := Raw(ack.circuitId)];
    var h1 := if ack.flags != NO_FLAGS then h0[HEADER_KEY_FLAGS := FlagWord(ack.flags)] else h0;
    Message(CONTENT_TYPE_ACKNOWLEDGEMENT, h1[HEADER_KEY_RECV_BUFFER_SIZE := U32(ack.recvBufferSize)], EncodeSequence(ack.sequence))
  }

  function UnmarshallAck(msg: Message): Result<Acknowledgement> {
    var h := msg.headers;
    if HEADER_KEY_CIRCUIT_ID !in h || !h[HEADER_KEY_CIRCUIT_ID].Raw? then Err
    else
      var size := if HEADER_KEY_RECV_BUFFER_SIZE in h && h[HEADER_KEY_RECV_BUFFER_SIZE].U32?
                  then h[HEADER_KEY_RECV_BUFFER_SIZE].u32 else TWO32 - 1;
      match DecodeSequence(msg.body)
      case Err => Err
      case Ok(s) => Ok(Acknowledgement(h[HEADER_KEY_CIRCUIT_ID].bytes, GetFlags(h), size, GetU16(h, HEADER_KEY_RTT), s))
  }

  lemma AckRoundTrip(ack: Acknowledgement)
    ensures UnmarshallAck(MarshallAck(ack)) == Ok(ack)
  {
    SequenceRoundTrip(ack.sequence);
  }

  /** A message that lacks the circuit id or the sequence number, or an ack body that is not whole words, is an error. */
  lemma {:induction false} IncompleteIsRefused(p: Payload, ack: Acknowledgement, now: nat, body: seq<uint8>)
    ensures var m := MarshallPayload(p, now);
            && UnmarshallPayload(m.(headers := m.headers - {HEADER_KEY_CIRCUIT_ID})).Err?
            && UnmarshallPayload(m.(headers := m.headers - {HEADER_KEY_SEQUENCE})).Err?
    ensures var m := MarshallAck(ack);
            && UnmarshallAck(m.(headers := m.headers - {HEADER_KEY_CIRCUIT_ID})).Err?
            && (UnmarshallAck(m.(body := body)).Err? <==> |body| % 4 != 0)
  {
  }

  /** Numbers of an ack go out most significant byte first, negative ones in two's complement. */
  lemma {:induction false} AckBytes()
    ensures EncodeSequence([0x01020304, -2]) == [1, 2, 3, 4, 255, 255, 255, 254]
  {
    var s: seq<int32> := [0x01020304, -2];
    assert s[..1] == [0x01020304] && s[..1][..0] == [];
    assert EncodeSequence(s[..1]) == EncodeSequence([]) + PutBigEndian(0x01020304, 4);
    assert PutBigEndian(0x01020304, 4) == PutBigEndian(0x010203, 3) + [4];
    assert PutBigEndian(0x010203, 3) == PutBigEndian(0x0102, 2) + [3];
    assert ToU32(-2) == 0xfffffffe;
    assert PutBigEndian(0xfffffffe, 4) == PutBigEndian(0xffffff, 3) + [254];
    assert PutBigEndian(0xffffff, 3) == PutBigEndian(0xffff, 2) + [255];
  }
}
