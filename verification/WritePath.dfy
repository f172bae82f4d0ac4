/**
 The two loops around a circuit's data: Write on the sending side, tx on the receiving side.
 Other goroutines may take sequence numbers between two chunks of one write, and the send
 buffer may refuse a chunk; both are inputs of the model.
 */
module WritePath {
  import opened Bytes
  import opened ChunkCodec
  import opened HeaderMap
  import opened Messages
  import opened Segmentation
  import opened Varint

  datatype Outcome =
    | Sent
    | EncodingError
    | Rejected      // forwardPayload failed: deadline or closed send buffer
    | Panicked      // the chunk has no room for a fixed field or the length prefix
    | Exhausted     // no 31-bit sequence number is left
    | WriteClosed

  /**
   `others(n)`: the payloads of other goroutines that take their numbers before this one
   does, when the counter stands at n. `admits(n)`: number n gets into the send buffer.
   */
  datatype World = World(others: nat -> seq<Payload>, admits: nat -> bool)

  datatype Emitted = Emitted(log: seq<Payload>, outcome: Outcome)

  /** A number taken for a chunk that was never built. */
  function Burned(e: Endpoint, sequence: int32): Payload {
    Payload(e.circuitId, NO_FLAGS, 0, sequence, map[], [])
  }

  /** Everything that took a sequence number until the write returned, by number. */
  function EmitWrite(e: Endpoint, w: Writing, log: seq<Payload>, world: World): (r: Emitted)
    requires ValidWriting(w)
    ensures log <= r.log
    decreases TWO31 - |log|
  {
    if !Pending(e, w) then Emitted(log, Sent)
    else
      var taken := log + world.others(|log|);
      if |taken| >= TWO31 then Emitted(taken, Exhausted)
      else
        match NextPayload(e, w, |taken|)
        case HeadersTooLarge => Emitted(taken + [Burned(e, |taken|)], EncodingError)
        case NoRoom => Emitted(taken + [Burned(e, |taken|)], Panicked)
        case Cut(p, next) =>
          if !world.admits(|taken|) then Emitted(taken + [p], Rejected)
          else EmitWrite(e, next, taken + [p], world)
  }

  function EmitAll(e: Endpoint, writes: seq<Write>, log: seq<Payload>, world: World): Emitted
    requires forall i :: 0 <= i < |writes| ==> ValidWrite(writes[i])
    decreases |writes|
  {
    if writes == [] then Emitted(log, Sent)
    else
      var r := EmitWrite(e, Begin(writes[0]), log, world);
      if r.outcome != Sent then r else EmitAll(e, writes[1..], r.log, world)
  }

  // ---------------------------------------------------------------- reassembly undoes segmentation

  ghost predicate HarmlessWorld(world: World) {
    forall n, i :: 0 <= i < |world.others(n)| ==> IsControl(world.others(n)[i]) && !Stops(world.others(n)[i])
  }

  lemma {:induction false} ReplaySnoc(log: seq<Payload>, p: Payload)
    ensures Replay(log + [p]) == Consume(Replay(log), p)
  {
    assert (log + [p])[..|log|] == log;
  }

  lemma {:induction false} ReplayControls(log: seq<Payload>, ps: seq<Payload>)
    requires !Replay(log).stopped
    requires forall i :: 0 <= i < |ps| ==> IsControl(ps[i]) && !Stops(ps[i])
    ensures var c := Replay(log + ps);
            !c.stopped && c.assembly == Replay(log).assembly && DataOf(c.out) == DataOf(Replay(log).out)
    decreases |ps|
  {
    if ps == [] {
      assert log + ps == log;
    } else {
      var front, last := ps[..|ps| - 1], ps[|ps| - 1];
      ReplayControls(log, front);
      assert log + ps == (log + front) + [last];
      ReplaySnoc(log + front, last);
      ControlTracks(Replay(log + front), last);
    }
  }

  lemma {:induction false} WriteReassembles(e: Endpoint, w: Writing, buffer: seq<uint8>, log: seq<Payload>, world: World)
    requires HarmlessWorld(world)
    requires !Replay(log).stopped && Tracks(e, Replay(log).assembly, w, buffer) && Pending(e, w)
    requires EmitWrite(e, w, log, world).outcome == Sent
    ensures var c := Replay(EmitWrite(e, w, log, world).log);
            && !c.stopped && c.assembly.Idle?
            && DataOf(c.out) == DataOf(Replay(log).out) + [DataMessage(buffer, w.headers)]
    decreases TWO31 - |log|
  {
    var taken := log + world.others(|log|);
    ReplayControls(log, world.others(|log|));
    var cut := NextPayload(e, w, |taken|);
    ReplaySnoc(taken, cut.payload);
    ChunkTracks(e, w, |taken|, Replay(taken), buffer);
    SnocData(Replay(taken).out, DataMessage(buffer, w.headers));
    if Pending(e, cut.next) {
      WriteReassembles(e, cut.next, buffer, taken + [cut.payload], world);
    }
  }

  /** What a write should deliver: its buffer and headers. With an MTU, an empty write without headers sends nothing. */
  function VisibleOne(e: Endpoint, w: Write): seq<Delivery> {
    if e.mtu > 0 && w.buffer == [] && w.headers == map[] then [] else [DataMessage(w.buffer, w.headers)]
  }

  function Visible(e: Endpoint, writes: seq<Write>): seq<Delivery> {
    if writes == [] then [] else VisibleOne(e, writes[0]) + Visible(e, writes[1..])
  }

  lemma {:induction false} OneReassembles(e: Endpoint, w: Write, log: seq<Payload>, world: World)
    requires HarmlessWorld(world) && ValidWrite(w)
    requires !Replay(log).stopped && Replay(log).assembly.Idle?
    requires EmitWrite(e, Begin(w), log, world).outcome == Sent
    ensures Extends(Replay(log), Replay(EmitWrite(e, Begin(w), log, world).log), VisibleOne(e, w))
  {
    BeginTracks(e, w);
    if Pending(e, Begin(w)) {
      WriteReassembles(e, Begin(w), w.buffer, log, world);
    }
  }

  /** Two Replay results `added` apart: nothing half assembled before or after. */
  ghost predicate Extends(before: Consumer, after: Consumer, added: seq<Delivery>) {
    && !before.stopped && before.assembly.Idle? && !after.stopped && after.assembly.Idle?
    && DataOf(after.out) == DataOf(before.out) + added
  }

  lemma ExtendsTwice(a: Consumer, b: Consumer, c: Consumer, x: seq<Delivery>, y: seq<Delivery>)
    requires Extends(a, b, x) && Extends(b, c, y)
    ensures Extends(a, c, x + y)
  {
    assert DataOf(a.out) + x + y == DataOf(a.out) + (x + y);
  }

  lemma {:induction false} AllReassemble(e: Endpoint, writes: seq<Write>, log: seq<Payload>, world: World)
    requires HarmlessWorld(world)
    requires forall i :: 0 <= i < |writes| ==> ValidWrite(writes[i])
    requires !Replay(log).stopped && Replay(log).assembly.Idle?
    requires EmitAll(e, writes, log, world).outcome == Sent
    ensures Extends(Replay(log), Replay(EmitAll(e, writes, log, world).log), Visible(e, writes))
    decreases |writes|
  {
    if writes != [] {
      var next := EmitWrite(e, Begin(writes[0]), log, world).log;
      var last := EmitAll(e, writes, log, world).log;
      OneReassembles(e, writes[0], log, world);
      AllReassemble(e, writes[1..], next, world);
      ExtendsTwice(Replay(log), Replay(next), Replay(last), VisibleOne(e, writes[0]), Visible(e, writes[1..]));
    }
  }

  /**
   Any list of writes, cut at any MTU, with any control payloads from other goroutines
   between the chunks: the txer writes exactly the same buffers with their headers.
   */
  lemma {:induction false} SegmentationRoundTrip(e: Endpoint, writes: seq<Write>, world: World)
    requires HarmlessWorld(world)
    requires forall i :: 0 <= i < |writes| ==> ValidWrite(writes[i])
    requires EmitAll(e, writes, [], world).outcome == Sent
    ensures DataOf(Replay(EmitAll(e, writes, [], world).log).out) == Visible(e, writes)
  {
    AllReassemble(e, writes, [], world);
  }

  // ---------------------------------------------------------------- when a write goes through

  /** Room for the fixed fields at their largest, the headers and the length prefix. */
  predicate LeavesRoom(e: Endpoint, w: Write)
    requires ValidWrite(w)
  {
    var room := e.mtu - |e.circuitId| - 9;
    && room >= 1
    && HeadersFitIn(w, room)
    && |HeaderBlock(w.order, w.headers)| + |PutUvarint(|w.buffer|)| <= room
  }

  predicate HeadersFitIn(w: Write, room: int)
    requires ValidWrite(w)
  {
    w.headers == map[] ||
    (Fits(w.order, w.headers, room - |PutUvarint(|w.order|)|))
  }

  lemma {:induction false} FitsMore(order: seq<uint8>, m: Headers, room: int, more: int)
    requires forall k :: k in order ==> k in m
    requires Fits(order, m, room) && room <= more
    ensures Fits(order, m, more)
    decreases |order|
  {
    if order != [] {
      var n := |Entry(order[0], m[order[0]])|;
      FitsMore(order[1..], m, room - n, more - n);
    }
  }

  lemma FirstNeverStuck(e: Endpoint, w: Write, sequence: nat)
    requires Sufficient(e) && e.mtu > 0 && ValidWrite(w) && LeavesRoom(e, w) && sequence < TWO31
    ensures NextPayload(e, Begin(w), sequence).Cut?
  {
    FirstHeadersFit(e, w, sequence);
    FirstPrefixFits(e, w, sequence);
  }

  lemma FirstHeadersFit(e: Endpoint, w: Write, sequence: nat)
    requires ValidWrite(w) && LeavesRoom(e, w) && sequence < TWO31
    ensures CountFits(e, Begin(w), sequence) && HeadersFit(e, Begin(w), sequence)
  {
    SequenceLength(sequence);
    if w.headers != map[] {
      var n := |PutUvarint(|w.order|)|;
      FitsMore(w.order, w.headers, e.mtu - |e.circuitId| - 9 - n, e.mtu - FixedFields(e, sequence) - n);
      CountIsPartOfBlock(w.order, w.headers);
    }
  }

  lemma {:induction false} CountIsPartOfBlock(order: seq<uint8>, headers: Headers)
    requires headers != map[] && IsOrder(order, headers)
    ensures |PutUvarint(|order|)| <= |HeaderBlock(order, headers)|
  {
  }

  lemma FirstPrefixFits(e: Endpoint, w: Write, sequence: nat)
    requires ValidWrite(w) && LeavesRoom(e, w) && sequence < TWO31
    ensures FixedFields(e, sequence) + |HeaderBlock(w.order, w.headers)| + |LengthPrefix(e, Begin(w), sequence)| <= e.mtu
  {
    SequenceLength(sequence);
  }

  lemma LaterNeverStuck(e: Endpoint, w: Writing, sequence: nat)
    requires Sufficient(e) && e.mtu > 0 && ValidWriting(w) && !w.first && w.rest != [] && sequence < TWO31
    ensures NextPayload(e, w, sequence).Cut? && |NextPayload(e, w, sequence).next.rest| < |w.rest|
  {
    SequenceLength(sequence);
    assert FixedFields(e, sequence) < e.mtu;
    assert HeaderBlock(ChunkOrder(w), ChunkHeaders(w)) == [];
    assert LengthPrefix(e, w, sequence) == [];
  }

  /** With room for headers and prefix, a write can only end early by being refused or by running out of numbers. */
  lemma {:induction false} WriteNeverStuck(e: Endpoint, w: Writing, origin: Write, log: seq<Payload>, world: World)
    requires Sufficient(e) && ValidWrite(origin) && (e.mtu > 0 ==> LeavesRoom(e, origin))
    requires ValidWriting(w) && (w.first ==> w == Begin(origin))
    ensures EmitWrite(e, w, log, world).outcome in {Sent, Rejected, Exhausted}
    ensures EmitWrite(e, w, log, world).outcome == Rejected ==> exists n :: |log| <= n && !world.admits(n)
    decreases TWO31 - |log|
  {
    var taken := log + world.others(|log|);
    if Pending(e, w) && |taken| < TWO31 {
      if e.mtu > 0 {
        if w.first {
          FirstNeverStuck(e, origin, |taken|);
        } else {
          LaterNeverStuck(e, w, |taken|);
        }
      }
      var cut := NextPayload(e, w, |taken|);
      if world.admits(|taken|) {
        WriteNeverStuck(e, cut.next, origin, taken + [cut.payload], world);
      }
    }
  }

  lemma {:induction false} EmitUnfolds(e: Endpoint, w: Writing, log: seq<Payload>, world: World, taken: seq<Payload>, cut: Cut)
    requires ValidWriting(w) && Pending(e, w) && taken == log + world.others(|log|) && |taken| < TWO31 && cut == NextPayload(e, w, |taken|)
    ensures cut.Cut? ==> ValidWriting(cut.next) && cut.payload.sequence == |taken|
    ensures cut.Cut? && world.admits(|taken|) ==> EmitWrite(e, w, log, world) == EmitWrite(e, cut.next, taken + [cut.payload], world)
    ensures cut.Cut? && !world.admits(|taken|) ==> EmitWrite(e, w, log, world) == Emitted(taken + [cut.payload], Rejected)
    ensures !cut.Cut? ==> EmitWrite(e, w, log, world).log == taken + [Burned(e, |taken|)] && EmitWrite(e, w, log, world).outcome != Rejected
  {
    if cut.Cut? {
      CutFits(e, w, |taken|);
    }
  }

  /** The last number was taken by this write, and is the one refused if any was. */
  predicate LastIsOwn(r: Emitted, log: seq<Payload>, world: World) {
    && |r.log| > |log| && r.log[|r.log| - 1].sequence == |r.log| - 1
    && (r.outcome == Rejected ==> !world.admits(|r.log| - 1))
  }

  /** A write that fails has taken a number for the chunk it failed at: the last one, which is this write's own. */
  lemma {:induction false} FailureTakesNumber(e: Endpoint, w: Writing, log: seq<Payload>, world: World)
    requires ValidWriting(w) && EmitWrite(e, w, log, world).outcome in {EncodingError, Panicked, Rejected}
    ensures LastIsOwn(EmitWrite(e, w, log, world), log, world)
    decreases TWO31 - |log|
  {
    var taken := log + world.others(|log|);
    var cut := NextPayload(e, w, |taken|);
    EmitUnfolds(e, w, log, world, taken, cut);
    if cut.Cut? && world.admits(|taken|) {
      FailureTakesNumber(e, cut.next, taken + [cut.payload], world);
    }
  }

  /** With an MTU, a write of nothing without headers takes no number. */
  lemma {:induction false} EmptyWriteSendsNothing(e: Endpoint, w: Write, log: seq<Payload>, world: World)
    requires ValidWrite(w) && e.mtu > 0 && w.buffer == [] && w.headers == map[]
    ensures EmitWrite(e, Begin(w), log, world) == Emitted(log, Sent)
  {
  }

  /** A write that goes through undisturbed starts with a cut and goes on to go through. */
  lemma SentStartsWithCut(e: Endpoint, w: Writing, log: seq<Payload>, world: World) returns (p: Payload, next: Writing)
    requires ValidWriting(w) && Pending(e, w) && world.others(|log|) == [] && EmitWrite(e, w, log, world).outcome == Sent
    ensures |log| < TWO31 && NextPayload(e, w, |log|) == Cut(p, next) && ValidWriting(next) && !Stops(p)
    ensures EmitWrite(e, next, log + [p], world).outcome == Sent
  {
    assert log + [] == log;
    var cut := NextPayload(e, w, |log|);
    p, next := cut.payload, cut.next;
  }

  lemma {:induction false} AllNeverStuck(e: Endpoint, writes: seq<Write>, log: seq<Payload>, world: World)
    requires Sufficient(e) && forall n :: world.admits(n)
    requires forall i :: 0 <= i < |writes| ==> ValidWrite(writes[i]) && (e.mtu > 0 ==> LeavesRoom(e, writes[i]))
    ensures EmitAll(e, writes, log, world).outcome in {Sent, Exhausted}
    decreases |writes|
  {
    if writes != [] {
      var r := EmitWrite(e, Begin(writes[0]), log, world);
      WriteNeverStuck(e, Begin(writes[0]), writes[0], log, world);
      if r.outcome == Sent {
        AllNeverStuck(e, writes[1..], r.log, world);
      }
    }
  }

  /**
   For any writes and any sufficient MTU, an open send buffer and control payloads from anywhere:
   as long as there are numbers, every write goes through and comes out again as it was.
   */
  lemma {:induction false} SegmentationAlwaysWorks(e: Endpoint, writes: seq<Write>, world: World)
    requires Sufficient(e) && HarmlessWorld(world) && forall n :: world.admits(n)
    requires forall i :: 0 <= i < |writes| ==> ValidWrite(writes[i]) && (e.mtu > 0 ==> LeavesRoom(e, writes[i]))
    ensures var r := EmitAll(e, writes, [], world);
            r.outcome == Exhausted || (r.outcome == Sent && DataOf(Replay(r.log).out) == Visible(e, writes))
  {
    AllNeverStuck(e, writes, [], world);
    if EmitAll(e, writes, [], world).outcome == Sent {
      SegmentationRoundTrip(e, writes, world);
    }
  }

  // ---------------------------------------------------------------- Write

  /** Appends the header block to the region that starts behind the two leading bytes. */
  method PutHeaders(chunk: array<uint8>, written: nat, headers: Headers, order: seq<uint8>) returns (ok: bool, n: nat)
    requires GoSlices(headers) && forall k :: k in order ==> k in headers
    requires 2 <= written && written + |PutUvarint(|order|)| <= chunk.Length
    modifies chunk
    ensures ok <==> Fits(order, headers, chunk.Length - written - |PutUvarint(|order|)|)
    ensures ok ==> n == |EncodeMap(order, headers)| && written + n <= chunk.Length
    ensures ok ==> chunk[2..written + n] == old(chunk[2..written]) + EncodeMap(order, headers)
  {
    ok, n := WriteU8ToBytesMap(headers, order, chunk, written);
    if ok {
      assert chunk[2..written] == chunk[..written][2..];
      assert old(chunk[..written])[2..] == old(chunk[2..written]);
      assert chunk[2..written + n] == chunk[2..written] + chunk[written..written + n];
    }
  }

  /** Writes the two leading bytes last, and keeps the heartbeat field if there is room for it. */
  method Seal(chunk: array<uint8>, written: nat, flags: uint8, size: uint8, heartbeat: bool) returns (raw: seq<uint8>, ghost beat: seq<uint8>)
    requires 2 <= written <= chunk.Length && (heartbeat ==> written + 8 <= chunk.Length)
    modifies chunk
    ensures |beat| == if heartbeat then 8 else 0
    ensures raw == [flags, size] + old(chunk[2..written]) + beat
  {
    chunk[0] := flags;
    chunk[1] := size;
    var end := if heartbeat then written + 8 else written;
    raw := chunk[..end];
    beat := chunk[written..end];
    assert raw == chunk[..2] + chunk[2..written] + beat;
  }

  lemma FrameOf(c: Chunk, rtt: seq<uint8>, beat: seq<uint8>, region: seq<uint8>, raw: seq<uint8>)
    requires IsOrder(c.order, c.headers) && |rtt| == RttSize(c) && |beat| == HeartbeatSize(c)
    requires region == rtt + c.circuitId + PutUvarint(c.sequence) + HeaderBlock(c.order, c.headers) + c.data
    requires raw == [ChunkFlags(c), |c.circuitId| % 16] + region + beat
    ensures IsImage(raw, c)
  {
    RegroupFields(rtt, c.circuitId, PutUvarint(c.sequence), HeaderBlock(c.order, c.headers), c.data);
    assert raw == Frame(c, rtt, beat) by {
      RegroupHead([ChunkFlags(c), |c.circuitId| % 16], rtt, Body(c), beat);
    }
  }

  lemma RegroupFields(a: seq<uint8>, b: seq<uint8>, c: seq<uint8>, d: seq<uint8>, e: seq<uint8>)
    ensures a + b + c + d + e == a + (b + (c + (d + e)))
  {
  }

  lemma RegroupHead(a: seq<uint8>, b: seq<uint8>, c: seq<uint8>, d: seq<uint8>)
    ensures a + (b + c) + d == a + b + c + d
  {
  }

  ghost predicate Encodes(raw: seq<uint8>, p: Payload) {
    exists c :: WellFormed(c) && IsImage(raw, c) && p == ChunkPayload(c, 0)
  }

  /** What goes over the wire is what the send buffer holds: any image of a payload decodes to that payload. */
  lemma ImageDecodes(raw: seq<uint8>, p: Payload, now: nat, beat: nat, heartbeatKey: int)
    requires Encodes(raw, p) && |p.circuitId| <= MAX_CIRCUIT_ID && LibraryKey(heartbeatKey)
    ensures |raw| >= 2 && (HasFlag(raw[0], RTT_FLAG_MASK) ==> |raw| >= 4)
    ensures var r := UnmarshallPacketPayload(StampHeartbeat(StampRtt(raw, now), beat), heartbeatKey);
            r.Packet? && UnmarshallPayload(r.msg) == Ok(p.(rtt := if p.sequence % 5 == 0 then ToU16(now) else 0))
  {
    var c :| WellFormed(c) && IsImage(raw, c) && p == ChunkPayload(c, 0);
    ChunkRoundTrip(raw, c, now, beat, heartbeatKey);
  }

  /** One pass of the loop of Write over a fresh MTU-sized buffer. */
  method FillChunk(e: Endpoint, w: Writing, sequence: nat) returns (cut: Cut, raw: seq<uint8>)
    requires ValidWriting(w) && sequence < TWO31 && e.mtu > 0
    ensures cut == NextPayload(e, w, sequence)
    ensures cut.Cut? ==> Encodes(raw, cut.payload)
    ensures cut.Cut? ==> 2 <= |raw| <= e.mtu && (HasFlag(raw[0], HEARTBEAT_FLAG_MASK) || |raw| + 8 > e.mtu)
  {
    raw := [];
    var chunk := new uint8[e.mtu](_ => 0);
    var failed, start, rtt := PutFront(chunk, e, w, sequence);
    if failed.Some? {
      return failed.value, raw;
    }
    var ok, data, size, chunked := PutData(chunk, w, start);
    PassIsCut(e, w, sequence, start, ok, data, size, chunked);
    if !ok {
      return NoRoom, raw;
    }
    var headers := if w.first then w.headers else map[];
    var c := Chunk(e.circuitId, e.terminator, sequence, headers, if w.first then w.order else [],
                   chunked, data, start + |data| + 8 <= chunk.Length);
    raw := SealChunk(chunk, c, start + |data|, rtt);
    var payload := Payload(e.circuitId, Flags(originator := e.terminator, chunk := chunked), 0, sequence, headers, data);
    cut := Cut(payload, w.(rest := w.rest[size..], first := false, chunked := chunked));
  }

  /** What `PutData` promises, in the words of the specification. */
  lemma PassIsCut(e: Endpoint, w: Writing, sequence: nat, start: nat, ok: bool, data: seq<uint8>, size: nat, chunked: bool)
    requires ValidWriting(w) && sequence < TWO31 && e.mtu > 0 && CountFits(e, w, sequence) && HeadersFit(e, w, sequence)
    requires start == FixedFields(e, sequence) + |HeaderBlock(ChunkOrder(w), ChunkHeaders(w))| <= e.mtu
    requires PutsData(w, e.mtu - start, ok, data, size, chunked)
    ensures !ok ==> NextPayload(e, w, sequence) == NoRoom
    ensures ok ==> NextPayload(e, w, sequence) ==
                   Cut(Payload(e.circuitId, Flags(originator := e.terminator, chunk := chunked), 0, sequence, ChunkHeaders(w), data),
                       w.(rest := w.rest[size..], first := false, chunked := chunked))
  {
    PutsPrefix(e, w, sequence, start, ok, data, size, chunked);
  }

  lemma PutsPrefix(e: Endpoint, w: Writing, sequence: nat, start: nat, ok: bool, data: seq<uint8>, size: nat, chunked: bool)
    requires ValidWriting(w) && start == FixedFields(e, sequence) + |HeaderBlock(ChunkOrder(w), ChunkHeaders(w))| <= e.mtu
    requires PutsData(w, e.mtu - start, ok, data, size, chunked)
    ensures ok <==> start + |LengthPrefix(e, w, sequence)| <= e.mtu
    ensures ok ==> CutChunk(e, w, sequence) ==
                   (Chunk(e.circuitId, e.terminator, sequence, ChunkHeaders(w), ChunkOrder(w), chunked, data, start + |data| + 8 <= e.mtu),
                    w.(rest := w.rest[size..], first := false, chunked := chunked))
  {
  }

  /** Everything before the data, or why it does not fit. */
  method PutFront(chunk: array<uint8>, e: Endpoint, w: Writing, sequence: nat)
    returns (failed: Option<Cut>, written: nat, ghost rtt: seq<uint8>)
    requires ValidWriting(w) && sequence < TWO31 && e.mtu > 0 && chunk.Length == e.mtu
    modifies chunk
    ensures failed == (if !CountFits(e, w, sequence) then Some(NoRoom) else if !HeadersFit(e, w, sequence) then Some(HeadersTooLarge) else None)
    ensures failed.None? ==>
              && written == FixedFields(e, sequence) + |HeaderBlock(ChunkOrder(w), ChunkHeaders(w))| <= chunk.Length && 2 <= written
              && |rtt| == (if IncludesRtt(sequence) then 2 else 0)
              && chunk[2..written] == rtt + e.circuitId + PutUvarint(sequence) + HeaderBlock(ChunkOrder(w), ChunkHeaders(w))
  {
    var fits;
    fits, written, rtt := PutFixed(chunk, e, sequence);
    if !fits {
      return Some(NoRoom), written, rtt;
    }
    failed := None;
    if w.first && w.headers != map[] {
      if chunk.Length - written < |PutUvarint(|w.order|)| {
        return Some(NoRoom), written, rtt;
      }
      var ok, n := PutHeaders(chunk, written, w.headers, w.order);
      if !ok {
        return Some(HeadersTooLarge), written, rtt;
      }
      written := written + n;
    } else {
      assert HeaderBlock(ChunkOrder(w), ChunkHeaders(w)) == [];
    }
  }

  /** RTT field, circuit id and sequence number, behind the two leading bytes. The id is cut off where the chunk ends; the number is not. */
  method PutFixed(chunk: array<uint8>, e: Endpoint, sequence: nat) returns (ok: bool, written: nat, ghost rtt: seq<uint8>)
    modifies chunk
    ensures ok <==> FixedFields(e, sequence) <= chunk.Length
    ensures ok ==> written == FixedFields(e, sequence)
    ensures ok ==> |rtt| == if IncludesRtt(sequence) then 2 else 0
    ensures ok ==> chunk[2..written] == rtt + e.circuitId + PutUvarint(sequence)
  {
    ok, rtt, written := false, [], if IncludesRtt(sequence) then 4 else 2;
    if chunk.Length < written {
      return;
    }
    rtt := chunk[2..written];
    var size := Min(chunk.Length - written, |e.circuitId|);
    var number := PutUvarint(sequence);
    AppendTo(chunk, 2, written - 2, e.circuitId[..size]);
    written := written + size;
    if chunk.Length - written < |number| {
      return;
    }
    assert e.circuitId[..size] == e.circuitId;
    assert chunk[2..written] == rtt + e.circuitId;
    AppendTo(chunk, 2, written - 2, number);
    ok, written := true, written + |number|;
  }

  /** With `room` bytes left: the length goes first if the data does not fit whole, and as much of the data follows as does fit. */
  predicate PutsData(w: Writing, room: nat, ok: bool, data: seq<uint8>, size: nat, chunked: bool) {
    var prefix := if w.first && room < |w.rest| then PutUvarint(w.total) else [];
    && (ok <==> |prefix| <= room)
    && (ok ==> size == Min(room - |prefix|, |w.rest|) && data == prefix + w.rest[..size] && chunked == (w.chunked || prefix != []))
  }

  /** The length prefix, if the data does not fit whole, and then as much of it as does. */
  method PutData(chunk: array<uint8>, w: Writing, start: nat) returns (ok: bool, data: seq<uint8>, size: nat, chunked: bool)
    requires ValidWriting(w) && 2 <= start <= chunk.Length
    modifies chunk
    ensures PutsData(w, chunk.Length - start, ok, data, size, chunked) && (ok ==> start + |data| <= chunk.Length)
    ensures ok ==> chunk[2..start + |data|] == old(chunk[2..start]) + data
  {
    ok, data, size, chunked := false, [], 0, w.chunked;
    if w.first && chunk.Length - start < |w.rest| {
      chunked := true;
      data := PutUvarint(w.total);
      if chunk.Length - start < |data| {
        return;
      }
    }
    size := Min(chunk.Length - start - |data|, |w.rest|);
    data := data + w.rest[..size];
    AppendTo(chunk, 2, start - 2, data);
    ok := true;
  }

  method SealChunk(chunk: array<uint8>, c: Chunk, written: nat, ghost rtt: seq<uint8>) returns (raw: seq<uint8>)
    requires WellFormed(c) && |rtt| == RttSize(c)
    requires 2 <= written <= chunk.Length && (c.heartbeat ==> written + 8 <= chunk.Length)
    requires chunk[2..written] == rtt + c.circuitId + PutUvarint(c.sequence) + HeaderBlock(c.order, c.headers) + c.data
    modifies chunk
    ensures Encodes(raw, ChunkPayload(c, 0))
    ensures |raw| == written + HeartbeatSize(c) && HasFlag(raw[0], HEARTBEAT_FLAG_MASK) == c.heartbeat
  {
    ghost var beat;
    FlagByteBits(c.terminator, IncludesRtt(c.sequence), c.chunked, c.headers != map[], c.heartbeat);
    ghost var region := chunk[2..written];
    raw, beat := Seal(chunk, written, ChunkFlags(c), |c.circuitId| % 16, c.heartbeat);
    FrameOf(c, rtt, beat, region, raw);
  }

  datatype Pass = Continue(next: Writing) | Stop(outcome: Outcome)

  class Xgress {
    const endpoint: Endpoint
    var rxSequence: nat
    var closed: bool
    var lastRaw: seq<uint8>   // the image of the chunk forwarded last
    ghost var log: seq<Payload>

    ghost predicate Valid()
      reads this
    {
      rxSequence == |log|
    }

    constructor (endpoint: Endpoint)
      ensures Valid() && this.endpoint == endpoint && log == [] && !closed
    {
      this.endpoint := endpoint;
      rxSequence, closed, lastRaw, log := 0, false, [], [];
    }

    /** Takes the next number for `p`, after whatever other goroutines took. */
    method Take(p: Payload, others: seq<Payload>)
      requires Valid()
      modifies this`rxSequence, this`log
      ensures Valid() && log == old(log) + others + [p]
    {
      log := log + others + [p];
      rxSequence := rxSequence + |others| + 1;
    }

    /** One pass of the loop: take a number, build the chunk, offer it to the send buffer. */
    method WriteChunk(writing: Writing, world: World) returns (pass: Pass)
      requires Valid() && ValidWriting(writing) && Pending(endpoint, writing)
      modifies this`rxSequence, this`log, this`lastRaw
      ensures Valid()
      ensures pass.Continue? && endpoint.mtu > 0 ==> log != [] && Encodes(lastRaw, log[|log| - 1])
      ensures PassIs(endpoint, writing, old(log), world, pass, log)
    {
      var others := world.others(rxSequence);
      var sequence := rxSequence + |others|;
      if sequence >= TWO31 {
        log := log + others;
        rxSequence := sequence;
        return Stop(Exhausted);
      }
      var cut, raw;
      if endpoint.mtu == 0 {
        cut, raw := NextPayload(endpoint, writing, sequence), [];
      } else {
        cut, raw := FillChunk(endpoint, writing, sequence);
      }
      match cut {
        case HeadersTooLarge =>
          Take(Burned(endpoint, sequence), others);
          pass := Stop(EncodingError);
        case NoRoom =>
          Take(Burned(endpoint, sequence), others);
          pass := Stop(Panicked);
        case Cut(p, next) =>
          Take(p, others);
          if !world.admits(sequence) {
            return Stop(Rejected);
          }
          lastRaw := raw;
          pass := Continue(next);
      }
    }

    /** Write: the numbers taken and the payloads behind them are those of EmitWrite. */
    method Write(w: Write, world: World) returns (r: Outcome)
      requires Valid() && ValidWrite(w)
      modifies this`rxSequence, this`log, this`lastRaw
      ensures Valid()
      ensures closed ==> r == WriteClosed && log == old(log)
      ensures !closed ==> Emitted(log, r) == EmitWrite(endpoint, Begin(w), old(log), world)
    {
      if closed {
        return WriteClosed;
      }
      var writing := Begin(w);
      while Pending(endpoint, writing)
        invariant Valid() && ValidWriting(writing)
        invariant EmitWrite(endpoint, writing, log, world) == EmitWrite(endpoint, Begin(w), old(log), world)
        decreases TWO31 - |log|
      {
        ghost var before := log;
        var pass := WriteChunk(writing, world);
        PassEmits(endpoint, writing, before, world, pass, log);
        match pass {
          case Stop(outcome) =>
            assert EmitWrite(endpoint, Begin(w), old(log), world) == Emitted(log, outcome);
            return outcome;
          case Continue(next) =>
            writing := next;
        }
      }
      EmitDone(endpoint, writing, log, world);
      r := Sent;
    }
  }

  /** What one pass of the loop does to the numbers taken so far. */
  ghost predicate PassIs(e: Endpoint, w: Writing, before: seq<Payload>, world: World, pass: Pass, after: seq<Payload>)
    requires ValidWriting(w)
  {
    var taken := before + world.others(|before|);
    if |taken| >= TWO31 then pass == Stop(Exhausted) && after == taken
    else
      match NextPayload(e, w, |taken|)
      case HeadersTooLarge => pass == Stop(EncodingError) && after == taken + [Burned(e, |taken|)]
      case NoRoom => pass == Stop(Panicked) && after == taken + [Burned(e, |taken|)]
      case Cut(p, next) => after == taken + [p] && pass == if world.admits(|taken|) then Continue(next) else Stop(Rejected)
  }

  lemma {:induction false} PassEmits(e: Endpoint, w: Writing, before: seq<Payload>, world: World, pass: Pass, after: seq<Payload>)
    requires ValidWriting(w) && Pending(e, w) && PassIs(e, w, before, world, pass, after)
    ensures pass.Stop? ==> EmitWrite(e, w, before, world) == Emitted(after, pass.outcome)
    ensures pass.Continue? ==>
              && after != [] && ValidWriting(pass.next) && |before| < |after| <= TWO31
              && EmitWrite(e, w, before, world) == EmitWrite(e, pass.next, after, world)
  {
  }

  lemma {:induction false} EmitDone(e: Endpoint, w: Writing, log: seq<Payload>, world: World)
    requires ValidWriting(w) && !Pending(e, w)
    ensures EmitWrite(e, w, log, world) == Emitted(log, Sent)
  {
  }

  // ---------------------------------------------------------------- tx

  /** The txer over the payloads NextPayload hands it, with the loop variables of the original. */
  method Tx(payloads: seq<Payload>) returns (out: seq<Delivery>, stopped: bool)
    ensures out == Replay(payloads).out && stopped == Replay(payloads).stopped
  {
    out, stopped := [], false;
    var payloadStarted := false;
    var payloadSize: nat, payloadWriteOffset: nat := 0, 0;
    var payloadData: seq<uint8> := [];
    var payloadHeaders: Headers := map[];
    var payloadFlags := NO_FLAGS;
    var i := 0;
    ghost var r := FRESH;
    while i < |payloads|
      invariant 0 <= i <= |payloads| && r == Replay(payloads[..i])
      invariant !stopped && !r.stopped && out == r.out
      invariant r.assembly ==
                if payloadStarted then Started(payloadSize, payloadWriteOffset, payloadData, payloadHeaders, payloadFlags) else Idle
      invariant !payloadStarted ==> payloadWriteOffset == 0
    {
      var chunk := payloads[i];
      assert payloads[..i + 1] == payloads[..i] + [chunk];
      ReplaySnoc(payloads[..i], chunk);
      i, r := i + 1, Consume(r, chunk);
      var data, headers, flags := chunk.data, chunk.headers, chunk.flags;
      if chunk.flags.chunk {
        var readOffset: nat, complete := 0, false;
        if !payloadStarted {
          var n := Uvarint(chunk.data);
          if CompleteInOne(chunk) {
            data, complete := chunk.data[if n.read < 0 then 0 else n.read..], true;
          } else if n.read < 0 {
            stopped := true;
            StoppedStays(payloads, i);
            return;
          } else {
            readOffset, payloadSize, payloadStarted := n.read, n.value, true;
            payloadData, payloadHeaders, payloadFlags := Zeros(n.value), chunk.headers, chunk.flags;
          }
        }
        if !complete {
          var bytes := chunk.data[readOffset..];
          if payloadWriteOffset > |payloadData| {
            stopped := true;
            StoppedStays(payloads, i);
            return;
          }
          payloadData := CopyAt(payloadData, payloadWriteOffset, bytes);
          payloadWriteOffset := payloadWriteOffset + |bytes|;
          data, headers, flags := payloadData, payloadHeaders, payloadFlags;
          complete := payloadWriteOffset == payloadSize;
        }
        if !complete {
          continue;
        }
        payloadStarted, payloadWriteOffset := false, 0;
      }
      if flags.circuitEnd || flags.eof {
        stopped := true;
        StoppedStays(payloads, i);
        return;
      }
      if !flags.circuitStart {
        out := out + [Delivery(data, headers, flags.writeFailed)];
      }
    }
    assert payloads[..i] == payloads;
  }

  /** Once the txer stops it delivers nothing more: whatever follows an end of circuit or end of file is never written. */
  lemma {:induction false} StoppedStays(log: seq<Payload>, n: nat)
    requires n <= |log| && Replay(log[..n]).stopped
    ensures Replay(log) == Replay(log[..n])
    decreases |log| - n
  {
    if n < |log| {
      assert log[..n + 1] == log[..n] + [log[n]];
      ReplaySnoc(log[..n], log[n]);
      StoppedStays(log, n + 1);
    } else {
      assert log[..n] == log;
    }
  }
}
