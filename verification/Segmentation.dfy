/**
 Cutting a write into MTU-sized chunks and putting it together again in the txer.
 The first chunk of a message that does not fit starts with the total length as a varint;
 every chunk of such a message carries the chunk flag, and the txer collects them until
 that many bytes are in. Payloads without the chunk flag pass straight through, also
 between the chunks of one message.
 */
module Segmentation {
  import opened Bytes
  import opened ChunkCodec
  import opened HeaderMap
  import opened Messages
  import opened Varint

  datatype Endpoint = Endpoint(circuitId: seq<uint8>, terminator: bool, mtu: nat)

  /** What the Write loop carries from one chunk to the next. */
  datatype Writing = Writing(rest: seq<uint8>, total: nat, headers: Headers, order: seq<uint8>, first: bool, chunked: bool)

  datatype Write = Write(buffer: seq<uint8>, headers: Headers, order: seq<uint8>)

  predicate ValidWrite(w: Write) {
    IsOrder(w.order, w.headers) && GoSlices(w.headers) && |w.buffer| < 0x8000_0000_0000_0000
  }

  function Begin(w: Write): (r: Writing)
    ensures ValidWrite(w) ==> ValidWriting(r)
  {
    Writing(w.buffer, |w.buffer|, w.headers, w.order, true, false)
  }

  predicate ValidWriting(w: Writing) {
    IsOrder(w.order, w.headers) && GoSlices(w.headers) && w.total < 0x8000_0000_0000_0000 && |w.rest| <= w.total
    && (w.first ==> !w.chunked)
  }

  /** The loop condition of Write; with no MTU there is exactly one pass. */
  predicate Pending(e: Endpoint, w: Writing) {
    if e.mtu == 0 then w.first else |w.rest| > 0 || (w.first && w.headers != map[])
  }

  /** The circuit id fits its size field, and the fixed fields leave at least one data byte. */
  predicate Sufficient(e: Endpoint) {
    |e.circuitId| <= MAX_CIRCUIT_ID && (e.mtu == 0 || e.mtu >= |e.circuitId| + 10)
  }

  function FixedFields(e: Endpoint, sequence: nat): nat {
    2 + (if IncludesRtt(sequence) then 2 else 0) + |e.circuitId| + |PutUvarint(sequence)|
  }

  datatype Cut =
    | Cut(payload: Payload, next: Writing)
    | HeadersTooLarge   // writeU8ToBytesMap reports an error
    | NoRoom            // a fixed field or the length prefix runs off the chunk

  /** The header part of the chunk that comes next. */
  function ChunkHeaders(w: Writing): Headers {
    if w.first then w.headers else map[]
  }

  function ChunkOrder(w: Writing): seq<uint8> {
    if w.first then w.order else []
  }

  /** One pass of the loop, without the bytes: the chunk it fills and what it leaves. */
  function CutChunk(e: Endpoint, w: Writing, sequence: nat): (Chunk, Writing)
    requires ValidWriting(w)
    requires FixedFields(e, sequence) + |HeaderBlock(ChunkOrder(w), ChunkHeaders(w))| + |LengthPrefix(e, w, sequence)| <= e.mtu
  {
    var used := FixedFields(e, sequence) + |HeaderBlock(ChunkOrder(w), ChunkHeaders(w))|;
    var prefix := LengthPrefix(e, w, sequence);
    var take := Min(e.mtu - used - |prefix|, |w.rest|);
    var data := prefix + w.rest[..take];
    var chunked := w.chunked || prefix != [];
    (Chunk(e.circuitId, e.terminator, sequence, ChunkHeaders(w), ChunkOrder(w), chunked, data, used + |data| + 8 <= e.mtu),
     w.(rest := w.rest[take..], first := false, chunked := chunked))
  }

  /** The total length goes in front of the first chunk of a message that does not fit into it. */
  function LengthPrefix(e: Endpoint, w: Writing, sequence: nat): seq<uint8>
    requires IsOrder(w.order, w.headers)
  {
    var used := FixedFields(e, sequence) + |HeaderBlock(ChunkOrder(w), ChunkHeaders(w))|;
    if w.first && e.mtu - used < |w.rest| then PutUvarint(w.total) else []
  }

  predicate HeadersFit(e: Endpoint, w: Writing, sequence: nat)
    requires ValidWriting(w)
  {
    ChunkHeaders(w) == map[] ||
    (Fits(w.order, w.headers, e.mtu - FixedFields(e, sequence) - |PutUvarint(|w.order|)|))
  }

  predicate CountFits(e: Endpoint, w: Writing, sequence: nat) {
    FixedFields(e, sequence) + (if ChunkHeaders(w) == map[] then 0 else |PutUvarint(|w.order|)|) <= e.mtu
  }

  /** One pass of the loop of Write, or the single payload of sendUnchunkedBuffer. */
  function NextPayload(e: Endpoint, w: Writing, sequence: nat): (r: Cut)
    requires ValidWriting(w) && sequence < TWO31
    ensures r.Cut? ==> ValidWriting(r.next) && !r.next.first && |r.next.rest| <= |w.rest|
  {
    if e.mtu == 0 then
      Cut(Payload(e.circuitId, Flags(originator := e.terminator), 0, sequence, w.headers, w.rest), w.(rest := [], first := false))
    else if !CountFits(e, w, sequence) then NoRoom
    else if !HeadersFit(e, w, sequence) then HeadersTooLarge
    else if FixedFields(e, sequence) + |HeaderBlock(ChunkOrder(w), ChunkHeaders(w))| + |LengthPrefix(e, w, sequence)| > e.mtu then NoRoom
    else
      var (c, next) := CutChunk(e, w, sequence);
      Cut(ChunkPayload(c, 0), next)
  }

  // ---------------------------------------------------------------- the txer

  datatype Assembly =
    | Idle
    | Started(size: nat, offset: nat, data: seq<uint8>, headers: Headers, flags: Flags)

  datatype TxEvent =
    | Wait
    | Send(data: seq<uint8>, headers: Headers, flags: Flags)
    | Crash

  /** `released` is what the txer takes off the receive buffer size for this payload. */
  datatype TxResult = TxResult(assembly: Assembly, event: TxEvent, released: nat)

  /** A chunk-flagged payload that already holds the whole message: the txer reslices it before releasing it. */
  predicate CompleteInOne(p: Payload) {
    p.data == [] || (var n := Uvarint(p.data); n.read >= 0 && n.value + n.read == |p.data|)
  }

  function Fill(a: Assembly, bytes: seq<uint8>, released: nat): TxResult
    requires a.Started?
  {
    if a.offset > |a.data| then TxResult(a, Crash, released)
    else
      var data := CopyAt(a.data, a.offset, bytes);
      var offset := a.offset + |bytes|;
      if offset == a.size then TxResult(Idle, Send(data, a.headers, a.flags), released)
      else TxResult(a.(data := data, offset := offset), Wait, released)
  }

  function TxStep(a: Assembly, p: Payload): TxResult {
    if !p.flags.chunk then TxResult(a, Send(p.data, p.headers, p.flags), |p.data|)
    else if a.Started? then Fill(a, p.data, |p.data|)
    else
      var n := Uvarint(p.data);
      if CompleteInOne(p) then
        var skip := if n.read < 0 then 0 else n.read;
        TxResult(Idle, Send(p.data[skip..], p.headers, p.flags), |p.data| - skip)
      else if n.read < 0 then TxResult(a, Crash, |p.data|)
      else Fill(Started(n.value, 0, Zeros(n.value), p.headers, p.flags), p.data[n.read..], |p.data|)
  }

  /** One call of peer.WritePayload. A write-failed notice reaches the peer as an empty write. */
  datatype Delivery = Delivery(data: seq<uint8>, headers: Headers, notice: bool)

  datatype Consumer = Consumer(assembly: Assembly, out: seq<Delivery>, stopped: bool)

  const FRESH := Consumer(Idle, [], false)

  function Consume(c: Consumer, p: Payload): Consumer {
    if c.stopped then c
    else
      var r := TxStep(c.assembly, p);
      match r.event
      case Wait => c.(assembly := r.assembly)
      case Crash => c.(stopped := true)
      case Send(data, headers, flags) =>
        if flags.circuitEnd || flags.eof then Consumer(r.assembly, c.out, true)
        else if flags.circuitStart then c.(assembly := r.assembly)
        else Consumer(r.assembly, c.out + [Delivery(data, headers, flags.writeFailed)], false)
  }

  function Replay(log: seq<Payload>): Consumer {
    if log == [] then FRESH else Consume(Replay(log[..|log| - 1]), log[|log| - 1])
  }

  /** The data messages among the deliveries. */
  function DataOf(out: seq<Delivery>): seq<Delivery> {
    if out == [] then []
    else DataOf(out[..|out| - 1]) + if out[|out| - 1].notice then [] else [out[|out| - 1]]
  }

  function DeliveredBytes(out: seq<Delivery>): seq<uint8> {
    if out == [] then [] else DeliveredBytes(out[..|out| - 1]) + out[|out| - 1].data
  }

  /** Circuit start and end, end of file and write-failed notices: no chunk flag, no data. */
  predicate IsControl(p: Payload) {
    !p.flags.chunk && p.data == [] && (p.flags.circuitStart || p.flags.circuitEnd || p.flags.eof || p.flags.writeFailed)
  }

  predicate Stops(p: Payload) {
    p.flags.circuitEnd || p.flags.eof
  }

  // ---------------------------------------------------------------- what the txer holds mid-message

  function DataMessage(buffer: seq<uint8>, headers: Headers): Delivery {
    Delivery(buffer, headers, false)
  }

  /** The assembly holds exactly the part of `buffer` the writer has already cut off. */
  ghost predicate Tracks(e: Endpoint, a: Assembly, w: Writing, buffer: seq<uint8>) {
    && ValidWriting(w) && w.total == |buffer|
    && w.rest == buffer[|buffer| - |w.rest|..]
    && (w.first ==> |w.rest| == |buffer|)
    && (w.first || !Pending(e, w) ==> a.Idle?)
    && (!w.first && Pending(e, w) ==>
          && w.chunked && a.Started? && a.size == |buffer| == |a.data|
          && a.offset == |buffer| - |w.rest|
          && a.data[..a.offset] == buffer[..a.offset]
          && a.headers == w.headers
          && !a.flags.circuitEnd && !a.flags.eof && !a.flags.circuitStart && !a.flags.writeFailed)
  }

  /** The first of several chunks: its data starts with the length, so it opens an assembly of that size. */
  lemma {:induction false} OpeningChunk(p: Payload, buffer: seq<uint8>, take: nat)
    requires p.flags.chunk && take < |buffer| < 0x8000_0000_0000_0000
    requires p.data == PutUvarint(|buffer|) + buffer[..take]
    ensures !CompleteInOne(p)
    ensures var r := TxStep(Idle, p);
            && r.event == Wait && r.assembly.Started? && r.assembly.size == |buffer| == |r.assembly.data|
            && r.assembly.offset == take && r.assembly.data[..take] == buffer[..take]
            && r.assembly.headers == p.headers && r.assembly.flags == p.flags
  {
    var part := buffer[..take];
    UvarintRoundTrip(|buffer|, part);
    assert p.data[|PutUvarint(|buffer|)|..] == part;
    var zeros := Zeros(|buffer|);
    assert zeros[..0] == buffer[..0];
    CopyExtends(zeros, 0, part, buffer);
  }

  lemma FirstChunkTracks(e: Endpoint, w: Writing, sequence: nat, c: Consumer, buffer: seq<uint8>)
    requires Tracks(e, c.assembly, w, buffer) && Pending(e, w) && w.first && e.mtu > 0 && !c.stopped && sequence < TWO31
    requires NextPayload(e, w, sequence).Cut?
    ensures var cut := NextPayload(e, w, sequence);
            var after := Consume(c, cut.payload);
            && !after.stopped && Tracks(e, after.assembly, cut.next, buffer)
            && after.out == if Pending(e, cut.next) then c.out else c.out + [DataMessage(buffer, w.headers)]
  {
    var cut := NextPayload(e, w, sequence);
    assert w.rest == buffer;
    FirstCut(e, w, sequence);
    if cut.payload.flags.chunk {
      var take := |buffer| - |cut.next.rest|;
      OpeningChunk(cut.payload, buffer, take);
    }
  }

  /** The first chunk either takes everything, or takes the length and a proper prefix. */
  lemma FirstCut(e: Endpoint, w: Writing, sequence: nat)
    requires ValidWriting(w) && w.first && e.mtu > 0 && sequence < TWO31
    requires NextPayload(e, w, sequence).Cut?
    ensures var cut := NextPayload(e, w, sequence);
            var take := |w.rest| - |cut.next.rest|;
            && take >= 0 && cut.next == w.(rest := w.rest[take..], first := false, chunked := cut.payload.flags.chunk)
            && cut.payload.headers == w.headers
            && cut.payload.flags == Flags(originator := e.terminator, chunk := cut.payload.flags.chunk)
            && (!cut.payload.flags.chunk ==> cut.payload.data == w.rest && cut.next.rest == [])
            && (cut.payload.flags.chunk ==> take < |w.rest| && cut.payload.data == PutUvarint(w.total) + w.rest[..take])
  {
    var (chunk, next) := CutChunk(e, w, sequence);
    var take := |w.rest| - |next.rest|;
    assert next.rest == w.rest[take..];
    if LengthPrefix(e, w, sequence) == [] {
      assert w.rest[..take] == w.rest;
    }
  }

  /** A chunk that leaves bytes for another one is full. */
  lemma FullUnlessLast(e: Endpoint, w: Writing, sequence: nat)
    requires ValidWriting(w) && sequence < TWO31 && e.mtu > 0
    requires NextPayload(e, w, sequence).Cut? && NextPayload(e, w, sequence).next.rest != []
    ensures FixedFields(e, sequence) + |HeaderBlock(ChunkOrder(w), ChunkHeaders(w))| + |NextPayload(e, w, sequence).payload.data| == e.mtu
  {
  }

  lemma LaterChunkTracks(e: Endpoint, w: Writing, sequence: nat, c: Consumer, buffer: seq<uint8>)
    requires Tracks(e, c.assembly, w, buffer) && Pending(e, w) && !w.first && e.mtu > 0 && !c.stopped && sequence < TWO31
    requires NextPayload(e, w, sequence).Cut?
    ensures var cut := NextPayload(e, w, sequence);
            var after := Consume(c, cut.payload);
            && !after.stopped && Tracks(e, after.assembly, cut.next, buffer)
            && after.out == if Pending(e, cut.next) then c.out else c.out + [DataMessage(buffer, w.headers)]
  {
    var (chunk, next) := CutChunk(e, w, sequence);
    var p, a := ChunkPayload(chunk, 0), c.assembly;
    var take := |p.data|;
    assert p.data == w.rest[..take];
    assert p.data == buffer[a.offset..a.offset + take];
    CopyExtends(a.data, a.offset, p.data, buffer);
    assert next.rest == w.rest[take..];
    assert next.rest == buffer[a.offset + take..];
  }

  lemma CopyExtends(data: seq<uint8>, offset: nat, bytes: seq<uint8>, buffer: seq<uint8>)
    requires |data| == |buffer| && offset + |bytes| <= |buffer|
    requires data[..offset] == buffer[..offset] && bytes == buffer[offset..offset + |bytes|]
    ensures CopyAt(data, offset, bytes)[..offset + |bytes|] == buffer[..offset + |bytes|]
    ensures offset + |bytes| == |buffer| ==> CopyAt(data, offset, bytes) == buffer
  {
    var r := CopyAt(data, offset, bytes);
    assert r[..offset + |bytes|] == r[..offset] + bytes;
  }

  /** A chunk carries its own number and no more data than the MTU. */
  lemma CutFits(e: Endpoint, w: Writing, sequence: nat)
    requires ValidWriting(w) && sequence < TWO31 && NextPayload(e, w, sequence).Cut?
    ensures NextPayload(e, w, sequence).payload.sequence == sequence
    ensures |NextPayload(e, w, sequence).payload.data| <= if e.mtu == 0 then |w.rest| else e.mtu
  {
  }

  lemma BeginTracks(e: Endpoint, w: Write)
    requires ValidWrite(w)
    ensures Tracks(e, Idle, Begin(w), w.buffer)
  {
  }

  /** Each chunk brings the assembly up to date; the last one delivers the whole message, once. */
  lemma ChunkTracks(e: Endpoint, w: Writing, sequence: nat, c: Consumer, buffer: seq<uint8>)
    requires Tracks(e, c.assembly, w, buffer) && Pending(e, w) && !c.stopped && sequence < TWO31
    requires NextPayload(e, w, sequence).Cut?
    ensures var cut := NextPayload(e, w, sequence);
            var after := Consume(c, cut.payload);
            && !after.stopped && Tracks(e, after.assembly, cut.next, buffer)
            && after.out == if Pending(e, cut.next) then c.out else c.out + [DataMessage(buffer, w.headers)]
  {
    if e.mtu == 0 {
      assert w.rest == buffer;
    } else if w.first {
      FirstChunkTracks(e, w, sequence, c, buffer);
    } else {
      LaterChunkTracks(e, w, sequence, c, buffer);
    }
  }

  lemma {:induction false} SnocData(out: seq<Delivery>, d: Delivery)
    ensures DataOf(out + [d]) == DataOf(out) + if d.notice then [] else [d]
  {
    assert (out + [d])[..|out|] == out;
  }

  /** A control payload never disturbs a message being assembled. */
  lemma ControlTracks(c: Consumer, p: Payload)
    requires IsControl(p) && !c.stopped
    ensures var after := Consume(c, p);
            && after.assembly == c.assembly
            && after.stopped == Stops(p)
            && DataOf(after.out) == DataOf(c.out)
            && c.out <= after.out
  {
    SnocData(c.out, Delivery(p.data, p.headers, true));
  }

  /** A write-failed notice reaches the peer as a write of nothing. */
  lemma WriteFailedIsDelivered(c: Consumer, p: Payload)
    requires IsControl(p) && p.flags.writeFailed && !Stops(p) && !p.flags.circuitStart && !c.stopped
    ensures Consume(c, p) == c.(out := c.out + [Delivery([], p.headers, true)])
  {
  }
}
