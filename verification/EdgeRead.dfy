/**
 Reading an edge connection as a byte stream. Messages come from a sequencer in order; a
 multipart message holds several parts, each behind a two-byte little-endian length. What
 does not fit the caller's buffer waits in `inBuffer`.

 What the sequencer returns (a message, a timeout, closed) is an event of `readQ`; with no event
 there a real Read would block. Decryption is outside the model: a message carries what opening
 it gives.
 */
module EdgeRead {
  import opened Bytes

  datatype Kind = StateClosed | Data | Other

  datatype Message = Message(
    kind: Kind,
    fin: bool,                           // the FIN flag
    multipart: bool,                     // the MULTIPART_MSG flag
    body: seq<uint8>,
    headerOpens: bool,                   // as a crypto header, it sets up the receiver
    plain: Option<seq<uint8>>)           // what the receiver makes of it, if anything

  datatype Event =
    | Got(msg: Message)
    | TimedOut
    | SequencerClosed

  // ---------------------------------------------------------------- multipart bodies

  function PutLength(n: nat): seq<uint8> {
    [n % 256, (n / 256) % 256]
  }

  function Length(d: seq<uint8>): nat
    requires |d| >= 2
  {
    (d[0] as int) + 256 * (d[1] as int)
  }

  function EncodeParts(parts: seq<seq<uint8>>): seq<uint8> {
    if parts == [] then [] else PutLength(|parts[0]|) + parts[0] + EncodeParts(parts[1..])
  }

  predicate WellFormed(d: seq<uint8>) {
    d == [] || (|d| >= 2 && |d| >= 2 + Length(d) && WellFormed(d[2 + Length(d)..]))
  }

  function SplitParts(d: seq<uint8>): (parts: seq<seq<uint8>>)
    requires WellFormed(d)
    ensures d != [] ==> parts != []
  {
    if d == [] then [] else [d[2..2 + Length(d)]] + SplitParts(d[2 + Length(d)..])
  }

  function Flatten(parts: seq<seq<uint8>>): seq<uint8> {
    if parts == [] then [] else parts[0] + Flatten(parts[1..])
  }

  /** A body made of parts is well formed and splits into exactly those parts. */
  lemma {:induction false} PartsRoundTrip(parts: seq<seq<uint8>>)
    requires forall i :: 0 <= i < |parts| ==> |parts[i]| < TWO16
    ensures WellFormed(EncodeParts(parts)) && SplitParts(EncodeParts(parts)) == parts
  {
    if parts != [] {
      var part, rest := parts[0], EncodeParts(parts[1..]);
      PartsRoundTrip(parts[1..]);
      var d := EncodeParts(parts);
      LengthRoundTrip(|part|);
      assert d[0] == PutLength(|part|)[0] && d[1] == PutLength(|part|)[1];
      assert d[2 + |part|..] == rest;
      assert d[2..2 + |part|] == part;
    }
  }

  lemma LengthRoundTrip(n: nat)
    requires n < TWO16
    ensures Length(PutLength(n)) == n
  {
  }

  // ---------------------------------------------------------------- the stream a run of events stands for

  /** What of the reader's state decides how the next event is taken. */
  datatype Cursor = Cursor(fin: bool, keyed: bool, receiving: bool)

  predicate HeaderArrives(m: Message, headerBytes: nat) {
    |m.body| == headerBytes && m.headerOpens
  }

  function Content(c: Cursor, m: Message): Option<seq<uint8>> {
    if c.receiving then m.plain else Some(m.body)
  }

  predicate WellFormedEvent(e: Event) {
    e.Got? && e.msg.multipart ==> WellFormed(e.msg.body) && (e.msg.plain.Some? ==> WellFormed(e.msg.plain.value))
  }

  function Advance(c: Cursor, e: Event, headerBytes: nat): Cursor {
    match e
    case TimedOut => c
    case SequencerClosed => c.(fin := true)
    case Got(m) =>
      if m.kind.StateClosed? then c.(fin := true)
      else if m.kind.Data? && c.keyed && !(m.body == [] && (c.fin || m.fin)) && HeaderArrives(m, headerBytes)
      then Cursor(c.fin || m.fin, false, true)
      else c.(fin := c.fin || m.fin)
  }

  /** The bytes one event adds to the stream. */
  function Yields(c: Cursor, e: Event): seq<uint8>
    requires WellFormedEvent(e)
  {
    if e.Got? && e.msg.kind.Data? && !c.keyed && !(e.msg.body == [] && (c.fin || e.msg.fin)) && Content(c, e.msg).Some?
    then PlainBytes(Content(c, e.msg).value, e.msg.multipart)
    else []
  }

  function PlainBytes(d: seq<uint8>, multipart: bool): seq<uint8>
    requires multipart ==> WellFormed(d)
  {
    if multipart then Flatten(SplitParts(d)) else d
  }

  /** Events after the end of the stream are never looked at. */
  function CursorAfter(c: Cursor, events: seq<Event>, headerBytes: nat): Cursor {
    if events == [] then c
    else
      var d := CursorAfter(c, events[..|events| - 1], headerBytes);
      if d.fin then d else Advance(d, events[|events| - 1], headerBytes)
  }

  predicate AllWellFormed(events: seq<Event>) {
    forall i :: 0 <= i < |events| ==> WellFormedEvent(events[i])
  }

  /** All bytes these events carry, up to the end of the stream. */
  function Stream(c: Cursor, events: seq<Event>, headerBytes: nat): seq<uint8>
    requires AllWellFormed(events)
  {
    if events == [] then []
    else
      var n := |events| - 1;
      var d := CursorAfter(c, events[..n], headerBytes);
      Stream(c, events[..n], headerBytes) + if d.fin then [] else Yields(d, events[n])
  }

  lemma {:induction false} StreamSnoc(c: Cursor, events: seq<Event>, e: Event, headerBytes: nat)
    requires AllWellFormed(events) && WellFormedEvent(e)
    ensures AllWellFormed(events + [e])
    ensures var d := CursorAfter(c, events, headerBytes);
            && CursorAfter(c, events + [e], headerBytes) == (if d.fin then d else Advance(d, e, headerBytes))
            && Stream(c, events + [e], headerBytes) == Stream(c, events, headerBytes) + if d.fin then [] else Yields(d, e)
  {
    assert (events + [e])[..|events|] == events;
  }

  lemma {:induction false} CursorSplit(c: Cursor, events: seq<Event>, more: seq<Event>, headerBytes: nat)
    ensures CursorAfter(c, events + more, headerBytes) == CursorAfter(CursorAfter(c, events, headerBytes), more, headerBytes)
    decreases |more|
  {
    if more == [] {
      assert events + more == events;
    } else {
      CursorSplit(c, events, more[..|more| - 1], headerBytes);
      assert (events + more)[..|events + more| - 1] == events + more[..|more| - 1];
    }
  }

  /** The stream of all events is that of the first ones followed by that of the rest, taken up where those left off. */
  lemma {:induction false} StreamSplit(c: Cursor, events: seq<Event>, more: seq<Event>, headerBytes: nat)
    requires AllWellFormed(events) && AllWellFormed(more)
    ensures Stream(c, events + more, headerBytes)
         == Stream(c, events, headerBytes) + Stream(CursorAfter(c, events, headerBytes), more, headerBytes)
    decreases |more|
  {
    if more == [] {
      assert events + more == events;
    } else {
      var n := |more| - 1;
      var d := CursorAfter(c, events, headerBytes);
      StreamSplit(c, events, more[..n], headerBytes);
      CursorSplit(c, events, more[..n], headerBytes);
      assert (events + more)[..|events + more| - 1] == events + more[..n];
      var last := CursorAfter(d, more[..n], headerBytes);
      Regroup(Stream(c, events, headerBytes), Stream(d, more[..n], headerBytes), if last.fin then [] else Yields(last, more[n]));
    }
  }

  lemma Regroup(a: seq<uint8>, b: seq<uint8>, c: seq<uint8>)
    ensures (a + b) + c == a + (b + c)
  {
  }

  /** Nothing after the end adds anything. */
  lemma {:induction false} EndedStreamIsEmpty(c: Cursor, events: seq<Event>, headerBytes: nat)
    requires AllWellFormed(events) && c.fin
    ensures CursorAfter(c, events, headerBytes) == c && Stream(c, events, headerBytes) == []
  {
    if events != [] {
      EndedStreamIsEmpty(c, events[..|events| - 1], headerBytes);
    }
  }

  /** A reader that took these events stands there, has returned `delivered` and keeps `buffer`. */
  ghost predicate InStep(c: Cursor, events: seq<Event>, headerBytes: nat, at: Cursor, delivered: seq<uint8>, buffer: seq<seq<uint8>>)
    requires AllWellFormed(events)
  {
    at == CursorAfter(c, events, headerBytes) && delivered + Flatten(buffer) == Stream(c, events, headerBytes)
  }

  lemma {:induction false} EventTaken(c: Cursor, events: seq<Event>, e: Event, headerBytes: nat, at: Cursor, delivered: seq<uint8>,
                   returned: seq<uint8>, buffer: seq<seq<uint8>>)
    requires AllWellFormed(events) && WellFormedEvent(e) && InStep(c, events, headerBytes, at, delivered, []) && !at.fin
    requires returned + Flatten(buffer) == Yields(at, e)
    ensures AllWellFormed(events + [e])
    ensures InStep(c, events + [e], headerBytes, Advance(at, e, headerBytes), delivered + returned, buffer)
  {
    StreamSnoc(c, events, e, headerBytes);
    assert delivered + Flatten([]) == delivered;
    Regroup(delivered, returned, Flatten(buffer));
  }

  // ---------------------------------------------------------------- what the stream is

  /** The sequencer was closed, the peer closed, or the message carries FIN. */
  predicate Ends(e: Event) {
    e.SequencerClosed? || (e.Got? && (e.msg.fin || e.msg.kind.StateClosed?))
  }

  predicate Ended(events: seq<Event>) {
    exists k :: 0 <= k < |events| && Ends(events[k])
  }

  /** The events up to the one that ends the stream, that one included. */
  function UpToEnd(events: seq<Event>): seq<Event> {
    if events == [] then [] else if Ends(events[0]) then [events[0]] else [events[0]] + UpToEnd(events[1..])
  }

  /** The bodies of all data messages, one after the other. */
  function Bodies(events: seq<Event>): seq<uint8>
    requires AllWellFormed(events)
  {
    if events == [] then []
    else
      assert WellFormedEvent(events[0]);
      (if events[0].Got? && events[0].msg.kind.Data? then PlainBytes(events[0].msg.body, events[0].msg.multipart) else []) + Bodies(events[1..])
  }

  /** What all data messages open to, one after the other; an empty FIN message carries nothing. */
  function Plaintexts(events: seq<Event>): seq<uint8>
    requires AllWellFormed(events)
  {
    if events == [] then []
    else
      assert WellFormedEvent(events[0]);
      (if events[0].Got? && events[0].msg.kind.Data? && events[0].msg.plain.Some? && !(events[0].msg.body == [] && events[0].msg.fin)
       then PlainBytes(events[0].msg.plain.value, events[0].msg.multipart) else []) + Plaintexts(events[1..])
  }

  lemma {:induction false} UpToEndIsWellFormed(events: seq<Event>)
    requires AllWellFormed(events)
    ensures AllWellFormed(UpToEnd(events))
  {
    if events != [] {
      assert WellFormedEvent(events[0]);
      UpToEndIsWellFormed(events[1..]);
    }
  }

  /** One event in front of the rest. */
  lemma {:induction false} StreamCons(c: Cursor, e: Event, rest: seq<Event>, headerBytes: nat)
    requires AllWellFormed([e] + rest) && !c.fin
    ensures AllWellFormed(rest) && WellFormedEvent(e)
    ensures Stream(c, [e] + rest, headerBytes) == Yields(c, e) + Stream(Advance(c, e, headerBytes), rest, headerBytes)
  {
    assert ([e] + rest)[0] == e && ([e] + rest)[1..] == rest;
    assert AllWellFormed([e]);
    assert [e][..0] == [];
    StreamSplit(c, [e], rest, headerBytes);
    assert [] + Yields(c, e) == Yields(c, e);
  }

  /** Without encryption the stream is the bodies of the data messages up to the end. */
  lemma {:induction false} PlainStream(events: seq<Event>, headerBytes: nat)
    requires AllWellFormed(events)
    ensures AllWellFormed(UpToEnd(events))
    ensures Stream(Cursor(false, false, false), events, headerBytes) == Bodies(UpToEnd(events))
    decreases |events|
  {
    UpToEndIsWellFormed(events);
    if events != [] {
      var c, e, rest := Cursor(false, false, false), events[0], events[1..];
      assert events == [e] + rest;
      StreamCons(c, e, rest, headerBytes);
      if Ends(e) {
        EndedStreamIsEmpty(Advance(c, e, headerBytes), rest, headerBytes);
        assert Bodies([e]) == Yields(c, e) + Bodies([]);
      } else {
        PlainStream(rest, headerBytes);
        assert UpToEnd(events)[1..] == UpToEnd(rest);
      }
    }
  }

  lemma {:induction false} OpenedStream(events: seq<Event>, headerBytes: nat)
    requires AllWellFormed(events)
    ensures AllWellFormed(UpToEnd(events))
    ensures Stream(Cursor(false, false, true), events, headerBytes) == Plaintexts(UpToEnd(events))
    decreases |events|
  {
    UpToEndIsWellFormed(events);
    if events != [] {
      var c, e, rest := Cursor(false, false, true), events[0], events[1..];
      assert events == [e] + rest;
      StreamCons(c, e, rest, headerBytes);
      if Ends(e) {
        EndedStreamIsEmpty(Advance(c, e, headerBytes), rest, headerBytes);
        assert Plaintexts([e]) == Yields(c, e) + Plaintexts([]);
      } else {
        OpenedStream(rest, headerBytes);
        assert UpToEnd(events)[1..] == UpToEnd(rest);
      }
    }
  }

  /** With encryption the first data message is the crypto header, and the stream is what the data messages behind it open to. */
  lemma {:induction false} SealedStream(header: Message, events: seq<Event>, headerBytes: nat)
    requires AllWellFormed([Got(header)] + events) && AllWellFormed(events)
    requires header.kind.Data? && !header.fin && HeaderArrives(header, headerBytes)
    ensures AllWellFormed(UpToEnd(events))
    ensures Stream(Cursor(false, true, false), [Got(header)] + events, headerBytes) == Plaintexts(UpToEnd(events))
  {
    StreamCons(Cursor(false, true, false), Got(header), events, headerBytes);
    OpenedStream(events, headerBytes);
  }

  lemma EndedSnoc(events: seq<Event>)
    requires events != []
    ensures Ended(events) <==> Ended(events[..|events| - 1]) || Ends(events[|events| - 1])
  {
    var n := |events| - 1;
    if k :| 0 <= k < n && Ends(events[..n][k]) {
      assert Ends(events[k]);
    }
    if k :| 0 <= k < |events| && Ends(events[k]) {
      assert k == n || events[..n][k] == events[k];
    }
  }

  /** The cursor stands at the end exactly if one of the events ended the stream. */
  lemma {:induction false} CursorEnds(c: Cursor, events: seq<Event>, headerBytes: nat)
    requires !c.fin
    ensures CursorAfter(c, events, headerBytes).fin <==> Ended(events)
  {
    if events != [] {
      CursorEnds(c, events[..|events| - 1], headerBytes);
      EndedSnoc(events);
    }
  }

  // ---------------------------------------------------------------- the connection

  /** What the reader makes of one event. */
  datatype Reply = Silence | Bytes | Failure | End

  /** A timeout, a bad crypto header and a message that does not open fail; nothing is skipped but crypto headers and other kinds of messages. */
  function ReplyTo(c: Cursor, e: Event, headerBytes: nat): Reply {
    match e
    case TimedOut => Failure
    case SequencerClosed => End
    case Got(m) =>
      if !m.kind.Data? then Silence
      else if m.body == [] && (c.fin || m.fin) then End
      else if c.keyed then if HeaderArrives(m, headerBytes) then Silence else Failure
      else if Content(c, m).None? then Failure
      else Bytes
  }

  /**
   Only other kinds of messages and the crypto header are passed over. Any other event that adds
   nothing to the stream ends it or fails; a message the receiver cannot open always fails.
   */
  lemma NothingIsSkipped(c: Cursor, e: Event, headerBytes: nat)
    requires WellFormedEvent(e) && !c.fin
    ensures ReplyTo(c, e, headerBytes).Silence? ==> e.Got? && (!e.msg.kind.Data? || (c.keyed && Advance(c, e, headerBytes).receiving))
    ensures Yields(c, e) != [] ==> ReplyTo(c, e, headerBytes).Bytes?
    ensures e.Got? && e.msg.kind.Data? && !c.keyed && c.receiving && e.msg.body != [] && e.msg.plain.None? ==> ReplyTo(c, e, headerBytes).Failure?
    ensures e.Got? && e.msg.kind.Data? && c.keyed && e.msg.body != [] && !HeaderArrives(e.msg, headerBytes) ==> ReplyTo(c, e, headerBytes).Failure?
    ensures e.TimedOut? ==> ReplyTo(c, e, headerBytes).Failure?
    ensures ReplyTo(c, e, headerBytes).End? ==> Ends(e)
  {
  }

  /** Where the reader stood before event `k`, and what it made of it. */
  ghost function ReplyAt(c: Cursor, events: seq<Event>, k: nat, headerBytes: nat): Reply
    requires k < |events|
  {
    ReplyTo(CursorAfter(c, events[..k], headerBytes), events[k], headerBytes)
  }

  datatype Outcome =
    | Read(n: nat)
    | Eof
    | Failed             // a timeout, a bad crypto header or a message that does not open
    | WouldBlock

  lemma {:induction false} ReplyToLast(c: Cursor, events: seq<Event>, e: Event, headerBytes: nat)
    ensures ReplyAt(c, events + [e], |events|, headerBytes) == ReplyTo(CursorAfter(c, events, headerBytes), e, headerBytes)
  {
    assert (events + [e])[..|events|] == events;
  }

  /** All these events were passed over. */
  ghost predicate PassedOver(c: Cursor, events: seq<Event>, from: nat, to: nat, headerBytes: nat)
    requires to <= |events|
  {
    forall k :: from <= k < to ==> ReplyAt(c, events, k, headerBytes).Silence?
  }

  lemma PassedOverOn(c: Cursor, events: seq<Event>, e: Event, from: nat, headerBytes: nat)
    requires PassedOver(c, events, from, |events|, headerBytes)
    ensures PassedOver(c, events + [e], from, |events|, headerBytes)
  {
    forall k | from <= k < |events| ensures ReplyAt(c, events + [e], k, headerBytes).Silence? {
      assert (events + [e])[..k] == events[..k] && ReplyAt(c, events, k, headerBytes).Silence?;
    }
  }

  /**
   One call of Read took the events behind `before`: it passed over all but the last, whose reply is
   its outcome unless that was passed over too, and it fails only if that one fails.
   */
  ghost predicate Replied(c: Cursor, before: seq<Event>, after: seq<Event>, r: Outcome, headerBytes: nat) {
    && before <= after
    && (|before| == |after| ==> !r.Failed?)
    && (|before| < |after| ==>
          var last := ReplyAt(c, after, |after| - 1, headerBytes);
          && PassedOver(c, after, |before|, |after| - 1, headerBytes)
          && (last.Silence? ==> !r.Failed? && !r.Read?) && (!last.Silence? ==> Agrees(Some(r), last)))
  }

  /** The outcome of one turn of the loop, None meaning to go on. */
  predicate Agrees(r: Option<Outcome>, reply: Reply) {
    match reply
    case Silence => r.None?
    case Bytes => r.Some? && r.value.Read?
    case Failure => r == Some(Failed)
    case End => r == Some(Eof)
  }

  class EdgeConn {
    const usesXgress: bool
    const headerBytes: nat
    ghost const start: Cursor
    var closed: bool
    var readFin: bool
    var sentFin: bool
    var rxKey: bool                    // a key is set and the crypto header still to come
    var receiver: bool
    var inBuffer: seq<seq<uint8>>
    var readQ: seq<Event>
    ghost var consumed: seq<Event>
    ghost var delivered: seq<uint8>    // everything Read has returned
    ghost var closedHere: bool         // Close or HandleMuxClose was called on this side

    ghost function Position(): Cursor
      reads this
    {
      Cursor(readFin, rxKey, receiver)
    }

    /** Returned and buffered bytes are the stream of the events taken so far. */
    ghost predicate Valid()
      reads this
    {
      && AllWellFormed(consumed) && AllWellFormed(readQ) && !start.fin
      && (closedHere ==> closed)
      && (!closedHere ==>
            && InStep(start, consumed, headerBytes, Position(), delivered, inBuffer)
            && (closed ==> readFin && inBuffer == []))
    }

    /** Everything received so far, read or not. */
    ghost function Received(): seq<uint8>
      reads this
      requires Valid()
    {
      Stream(start, consumed + readQ, headerBytes)
    }

    constructor (usesXgress: bool, encrypted: bool, headerBytes: nat)
      ensures Valid() && start == Cursor(false, encrypted, false) && Received() == [] && delivered == [] && !closedHere
    {
      this.usesXgress, this.headerBytes := usesXgress, headerBytes;
      start := Cursor(false, encrypted, false);
      closed, readFin, sentFin, rxKey, receiver := false, false, false, encrypted, false;
      inBuffer, readQ := [], [];
      consumed, delivered, closedHere := [], [], false;
    }

    /** The sequencer gets a message. */
    method Put(e: Event)
      requires Valid() && WellFormedEvent(e)
      modifies this`readQ
      ensures Valid() && readQ == old(readQ) + [e]
    {
      readQ := readQ + [e];
    }

    /** Close on this side, or the close of the whole mux (HandleMuxClose): either way buffered bytes are given up. */
    method CloseHere()
      requires Valid()
      modifies this
      ensures Valid() && closed && closedHere && readQ == old(readQ) && inBuffer == old(inBuffer) && delivered == old(delivered)
    {
      closed, readFin, sentFin, closedHere := true, true, true, true;
    }

    /** Copies what fits and keeps the rest in front. */
    method CopyOut(p: array<uint8>, d: seq<uint8>) returns (n: nat)
      modifies p
      ensures n == Min(p.Length, |d|) && p[..n] == d[..n] && p[n..] == old(p[n..])
    {
      n := Min(p.Length, |d|);
      forall i | 0 <= i < n {
        p[i] := d[i];
      }
    }

    method Split(body: seq<uint8>) returns (parts: seq<seq<uint8>>)
      requires WellFormed(body)
      ensures parts == SplitParts(body)
    {
      parts := [];
      var d := body;
      while |d| > 0
        invariant WellFormed(d) && parts + SplitParts(d) == SplitParts(body)
        decreases |d|
      {
        var l := Length(d);
        var part, rest := d[2..2 + l], d[2 + l..];
        assert parts + ([part] + SplitParts(rest)) == (parts + [part]) + SplitParts(rest);
        parts, d := parts + [part], rest;
      }
    }

    /** What fits goes to the caller; the rest, part by part, to the buffer. */
    method Deliver(p: array<uint8>, d: seq<uint8>, multipart: bool) returns (n: nat)
      requires inBuffer == [] && (multipart ==> WellFormed(d))
      modifies this`inBuffer, p
      ensures n <= p.Length && p[n..] == old(p[n..])
      ensures p[..n] + Flatten(inBuffer) == PlainBytes(d, multipart)
    {
      if multipart && |d| > 0 {
        var parts := Split(d);
        n := CopyOut(p, parts[0]);
        var first := parts[0][n..];
        assert parts[0] == parts[0][..n] + first;
        inBuffer := if |first| == 0 then parts[1..] else [first] + parts[1..];
        assert |first| > 0 ==> inBuffer[1..] == parts[1..];
      } else {
        n := CopyOut(p, d);
        var rest := d[n..];
        assert d == d[..n] + rest;
        if |rest| > 0 {
          inBuffer := [rest];
          assert Flatten([rest]) == rest + Flatten([]);
        }
      }
    }

    method TakeBuffered(p: array<uint8>) returns (n: nat)
      requires inBuffer != []
      modifies this`inBuffer, p
      ensures n == Min(p.Length, |old(inBuffer)[0]|) && p[n..] == old(p[n..])
      ensures p[..n] + Flatten(inBuffer) == Flatten(old(inBuffer))
    {
      var first, others := inBuffer[0], inBuffer[1..];
      n := CopyOut(p, first);
      assert first == first[..n] + first[n..];
      first := first[n..];
      if |first| == 0 {
        inBuffer := others;
      } else {
        inBuffer := [first] + others;
        assert inBuffer[1..] == others;
      }
    }

    /** One turn of the loop of Read, for one event. None means go on. */
    method Handle(p: array<uint8>, e: Event) returns (r: Option<Outcome>)
      requires WellFormedEvent(e) && inBuffer == [] && !readFin && !closed
      modifies this`closed, this`readFin, this`sentFin, this`rxKey, this`receiver, this`inBuffer, p
      ensures Position() == Advance(old(Position()), e, headerBytes)
      ensures r.Some? && r.value.Read? ==> r.value.n <= p.Length && p[r.value.n..] == old(p[r.value.n..])
                                           && p[..r.value.n] + Flatten(inBuffer) == Yields(old(Position()), e) && !closed
      ensures !(r.Some? && r.value.Read?) ==> p[..] == old(p[..]) && inBuffer == [] && Yields(old(Position()), e) == []
      ensures (closed || r == Some(Eof) ==> readFin) && r != Some(WouldBlock)
      ensures Agrees(r, ReplyTo(old(Position()), e, headerBytes))
    {
      match e
      case SequencerClosed =>
        readFin := true;
        return Some(Eof);
      case TimedOut =>
        return Some(Failed);
      case Got(m) =>
        if m.fin {
          readFin := true;
        }
        match m.kind
        case StateClosed =>
          if usesXgress {
            readFin := true;
            if sentFin {
              closed := true;
            }
          } else {
            closed, readFin, sentFin := true, true, true;
          }
          return None;
        case Other =>
          return None;
        case Data =>
          if |m.body| == 0 && readFin {
            return Some(Eof);
          }
          if rxKey {
            if |m.body| != headerBytes || !m.headerOpens {
              return Some(Failed);
            }
            rxKey, receiver := false, true;
            return None;
          }
          var d := m.body;
          if receiver {
            if m.plain == None {
              return Some(Failed);
            }
            d := m.plain.value;
          }
          var n := Deliver(p, d, m.multipart);
          return Some(Outcome.Read(n));
    }

    method TakeEvent(p: array<uint8>) returns (r: Option<Outcome>)
      requires Valid() && !closedHere && !closed && inBuffer == [] && !readFin && readQ != []
      modifies this, p
      ensures Valid() && !closedHere && consumed == old(consumed) + [old(readQ)[0]] && readQ == old(readQ)[1..]
      ensures r.Some? && r.value.Read? ==> r.value.n <= p.Length && p[r.value.n..] == old(p[r.value.n..]) && delivered == old(delivered) + p[..r.value.n]
      ensures !(r.Some? && r.value.Read?) ==> p[..] == old(p[..]) && delivered == old(delivered) && inBuffer == []
      ensures (closed || r == Some(Eof) ==> readFin) && r != Some(WouldBlock)
      ensures Agrees(r, ReplyAt(start, consumed, |old(consumed)|, headerBytes))
    {
      var e := readQ[0];
      ghost var at := Position();
      ReplyToLast(start, consumed, e, headerBytes);
      r := Handle(p, e);
      ghost var returned := if r.Some? && r.value.Read? then p[..r.value.n] else [];
      EventTaken(start, consumed, e, headerBytes, at, delivered, returned, inBuffer);
      consumed, readQ, delivered := consumed + [e], readQ[1..], delivered + returned;
    }

    lemma EndIsKnown()
      requires Valid() && !closedHere
      ensures readFin <==> Ended(consumed)
    {
      CursorEnds(start, consumed, headerBytes);
    }

    /** The loop of Read, with nothing buffered. */
    method ReadEvents(p: array<uint8>) returns (r: Outcome)
      requires Valid() && !closed && !closedHere && inBuffer == []
      modifies this, p
      ensures Valid() && consumed + readQ == old(consumed + readQ) && !closedHere
      ensures r.Read? ==> r.n <= p.Length && p[r.n..] == old(p[r.n..]) && delivered == old(delivered) + p[..r.n]
      ensures !r.Read? ==> p[..] == old(p[..]) && delivered == old(delivered) && inBuffer == []
      ensures r.Eof? ==> readFin
      ensures r.WouldBlock? ==> readQ == []
      ensures old(readFin) ==> r.Eof? && consumed == old(consumed)
      ensures Replied(start, old(consumed), consumed, r, headerBytes)
    {
      while true
        invariant Valid() && !closedHere && inBuffer == [] && (closed ==> readFin)
        invariant consumed + readQ == old(consumed + readQ)
        invariant p[..] == old(p[..]) && delivered == old(delivered)
        invariant old(consumed) <= consumed && (old(readFin) ==> readFin && consumed == old(consumed))
        invariant PassedOver(start, consumed, |old(consumed)|, |consumed|, headerBytes)
        decreases |readQ|
      {
        if readFin {
          return Eof;
        }
        if readQ == [] {
          return WouldBlock;
        }
        ghost var c, q := consumed, readQ;
        var step := TakeEvent(p);
        assert c + q == c + [q[0]] + q[1..];
        PassedOverOn(start, c, q[0], |old(consumed)|, headerBytes);
        if step.Some? {
          return step.value;
        }
      }
    }

    /**
     Takes no byte and no event out of order, returns bytes exactly once, fails at once at the first
     event that fails, and reports the end exactly when the stream has ended and everything received
     has been returned, unless this side closed the connection.
     */
    method Read(p: array<uint8>) returns (r: Outcome)
      requires Valid()
      modifies this, p
      ensures Valid() && consumed + readQ == old(consumed + readQ) && closedHere == old(closedHere)
      ensures r.Read? ==> r.n <= p.Length && p[r.n..] == old(p[r.n..]) && delivered == old(delivered) + p[..r.n]
      ensures !r.Read? ==> p[..] == old(p[..]) && delivered == old(delivered)
      ensures old(closed) ==> r.Eof?
      ensures !old(closed) && old(inBuffer) != [] ==> r == Outcome.Read(Min(p.Length, |old(inBuffer)[0]|))
      ensures r.Eof? && !closedHere ==> inBuffer == [] && delivered == Received() && Ended(consumed)
      ensures !old(closed) && old(inBuffer) == [] && Ended(old(consumed)) ==> r.Eof?
      ensures r.WouldBlock? ==> inBuffer == [] && readQ == [] && delivered == Received()
      ensures Replied(start, old(consumed), consumed, r, headerBytes)
    {
      if closed {
        AtEnd();
        return Eof;
      }
      if |inBuffer| > 0 {
        var n := TakeBuffered(p);
        ghost var d := delivered;
        delivered := delivered + p[..n];
        assert delivered + Flatten(inBuffer) == d + (p[..n] + Flatten(inBuffer));
        return Outcome.Read(n);
      }
      EndIsKnown();
      r := ReadEvents(p);
      if r.Eof? {
        AtEnd();
      } else if r.WouldBlock? {
        assert consumed + readQ == consumed;
      }
    }

    lemma AtEnd()
      requires Valid() && (!closedHere ==> readFin && inBuffer == [])
      ensures !closedHere ==> delivered == Received() && Ended(consumed)
    {
      if !closedHere {
        EndIsKnown();
        StreamSplit(start, consumed, readQ, headerBytes);
        EndedStreamIsEmpty(Position(), readQ, headerBytes);
      }
    }

    /** Until this side closes: bytes returned, bytes buffered and the bytes of the unread events are all bytes received, in order. */
    lemma Conserved()
      requires Valid() && !closedHere
      ensures delivered + Flatten(inBuffer) + Stream(Position(), readQ, headerBytes) == Received()
    {
      StreamSplit(start, consumed, readQ, headerBytes);
    }
  }
}
