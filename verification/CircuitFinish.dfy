/** A live circuit empties the send buffer, lets the waiting numbers in, finishes the write in progress and delivers everything. */
module CircuitFinish {
  import opened Bytes
  import opened Circuit
  import opened CircuitPaths
  import opened CircuitProgress
  import opened CircuitRuns
  import opened CircuitTheorems
  import opened Messages
  import opened ReceiveBuffer
  import opened Segmentation
  import opened SendBuffer
  import opened Weights
  import WritePath

  // ---------------------------------------------------------------- emptying the send buffer

  /** `k` is the lowest number that waits, or there is none. */
  ghost predicate Lowest(w: Writer, k: nat) {
    Below(w, k) && (k in w.offered || k == |w.log|)
  }

  /** The receiver has room for one more payload beyond `k`, or nothing with data waits beyond what it took. */
  ghost predicate Passable(c: Config, s: State, k: nat) {
    Total(Beyond(s.rcv.tree, k)) <= c.rxBufferSize || Total(Stuck(s.snd.buffer, s.rcv.maxSequence)) == 0
  }

  /** Behind everything below `k`, the tree holds only what is beyond `k`. */
  lemma TreeIsBeyond(c: Config, s: State, k: nat)
    requires Numbered(c, s.w, s.wire) && Receiving(s.w.log, s.wire, s.rcv, s.taken)
    requires CaughtUp(s, k) && Lowest(s.w, k)
    ensures s.rcv.sequence + 1 == k && k !in s.rcv.tree && Beyond(s.rcv.tree, k) == s.rcv.tree
  {
    if k in s.w.offered {
      assert k !in s.wire;
    }
  }

  lemma SmallSize(c: Config, s: State)
    requires Conserved(s.rcv, s.phase) && s.rcv.queue == [] && HandBytes(s.phase) == 0 && Total(s.rcv.tree) <= c.rxBufferSize
    ensures s.rcv.size <= c.rxBufferSize
  {
    SmallStays(Occupied(s.rcv, s.phase));
  }

  /** A payload behind or beyond the gap that is not refused stays where it is. */
  lemma TakenAside(r: Recv, p: Payload, k: nat, maxSize: uint32)
    requires Ordered(r) && r.queue == [] && r.sequence + 1 == k && k !in r.tree && p.sequence != k
    requires !Refuses(r, p.sequence, maxSize)
    ensures var t := ReceiveUnordered(r, p, maxSize);
            && t.queue == [] && t.sequence == r.sequence
            && t.maxSequence == if p.sequence > r.maxSequence then p.sequence else r.maxSequence
  {
  }

  lemma AckClears(c: Config, s: State, n: nat, size: uint32)
    requires ValidConfig(c) && Accounted(c.options, s.snd) && Ack([n], size, 0) in s.acks
    ensures Enabled(c, s, AckArrives(Ack([n], size, 0), 0))
    ensures var t := Apply(c, s, AckArrives(Ack([n], size, 0), 0));
            t == s.(snd := t.snd) && t.snd.buffer == s.snd.buffer - {n as int}
  {
    var numbers: seq<int> := [n];
    AckKeeps(c.options, s.snd, Ack(numbers, size, 0), 0);
    assert (set k | k in numbers) == {n as int};
  }

  /** Number `n` received from the wire, and its ack stored by a free worker. */
  function Acked(c: Config, s: State, n: nat): State
    requires n < |s.w.log|
  {
    var after := ReceiveUnordered(s.rcv, s.w.log[n], c.rxBufferSize);
    s.(rcv := after, acks := s.acks + {Ack([s.w.log[n].sequence], after.size, 0)}, advertised := after.size)
  }

  lemma Acks(c: Config, s: State, n: nat, worker: nat) returns (steps: seq<Step>)
    requires n in s.wire && n < |s.w.log| && worker !in s.arrivals && !Refuses(s.rcv, s.w.log[n].sequence, c.rxBufferSize)
    ensures Path(c, s, steps, Acked(c, s, n)) && forall i :: 0 <= i < |steps| ==> Gentle(steps[i])
  {
    var t := Acked(c, s, n);
    var a := Apply(c, s, Receive(n, worker, 0));
    var b := Apply(c, a, ReadSize(worker));
    assert b.arrivals - {worker} == s.arrivals;
    assert Apply(c, b, StoreAck(worker)) == t;
    assert Path(c, t, [], t);
    PathStep(c, b, StoreAck(worker), [], t);
    PathStep(c, a, ReadSize(worker), [StoreAck(worker)] + [], t);
    PathStep(c, s, Receive(n, worker, 0), [ReadSize(worker)] + ([StoreAck(worker)] + []), t);
    steps := [Receive(n, worker, 0)] + ([ReadSize(worker)] + ([StoreAck(worker)] + []));
  }

  ghost predicate SameWriter(s: State, t: State) {
    t.w == s.w.(current := t.w.current)
  }

  /** A retransmission the receiver does not refuse, its ack, and the number is out of the send buffer. */
  lemma DrainOne(c: Config, s: State, k: nat, n: nat) returns (steps: seq<Step>, t: State)
    requires Live(c, s) && CaughtUp(s, k) && Lowest(s.w, k) && n in s.w.entered && !Refuses(s.rcv, n, c.rxBufferSize)
    ensures Path(c, s, steps, t) && Live(c, t) && CaughtUp(t, k) && SameWriter(s, t) && t.closing == s.closing
    ensures t.snd.buffer == s.snd.buffer - {n as int}
    ensures t.rcv.maxSequence == if n > s.rcv.maxSequence then n else s.rcv.maxSequence
  {
    TreeIsBeyond(c, s, k);
    assert n < |s.w.log| && s.w.log[n].sequence == n;
    TakenAside(s.rcv, s.w.log[n], k, c.rxBufferSize);
    var worker := AboveAll(s.arrivals.Keys);
    steps, t := AckRound(c, s, n, worker);
    LivePath(c, s, steps, t);
  }

  /** Number `n` once more on the wire, received, acked, and the ack back at the sender. */
  lemma AckRound(c: Config, s: State, n: nat, worker: nat) returns (steps: seq<Step>, t: State)
    requires ValidConfig(c) && Accounted(c.options, s.snd) && worker !in s.arrivals
    requires n in s.w.entered && n < |s.w.log| && s.w.log[n].sequence == n && !Refuses(s.rcv, n, c.rxBufferSize)
    ensures Path(c, s, steps, t) && forall i :: 0 <= i < |steps| ==> Gentle(steps[i])
    ensures SameWriter(s, t) && t.snd.buffer == s.snd.buffer - {n as int} && t.phase == s.phase
    ensures t.rcv == ReceiveUnordered(s.rcv, s.w.log[n], c.rxBufferSize)
    ensures s.acks <= t.acks && t.arrivals == s.arrivals
    ensures exists size: uint32 :: t.snd == ReceiveAck(c.options, s.snd, Ack([n], size, 0), 0)
  {
    var a := PutOnWire(s, n);
    var middle := Acks(c, a, n, worker);
    var b := Acked(c, a, n);
    PathStep(c, s, Forward(n), middle, b);
    AckClears(c, b, n, b.rcv.size);
    var last := AckArrives(Ack([n], b.rcv.size, 0), 0);
    t := Apply(c, b, last);
    steps := [Forward(n)] + middle + [last];
    PathSnoc(c, s, [Forward(n)] + middle, b, last);
  }

  lemma BufferedIsEntered(c: Config, s: State, n: int)
    requires Live(c, s) && n in s.snd.buffer
    ensures 0 <= n && n in s.w.entered
  {
  }

  lemma LowIsNotStuck(buffer: map<int, Payload>, n: int, highest: int)
    requires n in buffer && n <= highest
    ensures Stuck(buffer - {n}, highest) == Stuck(buffer, highest) && |buffer - {n}| < |buffer|
  {
    assert (buffer - {n}).Keys == buffer.Keys - {n};
  }

  lemma AllIsStuck(buffer: map<int, Payload>, highest: int)
    requires forall n :: n in buffer ==> n > highest
    ensures Stuck(buffer, highest) == buffer
  {
  }

  /** Whatever is not above the highest number the receiver took leaves the send buffer. */
  lemma {:induction false} LiveDrains(c: Config, s: State, k: nat) returns (steps: seq<Step>, t: State)
    requires Live(c, s) && CaughtUp(s, k) && Lowest(s.w, k)
    ensures Path(c, s, steps, t) && Live(c, t) && CaughtUp(t, k) && SameWriter(s, t) && t.closing == s.closing
    ensures t.snd.buffer == Stuck(s.snd.buffer, s.rcv.maxSequence)
    decreases |s.snd.buffer|
  {
    var highest := s.rcv.maxSequence;
    if n :| n in s.snd.buffer && n <= highest {
      BufferedIsEntered(c, s, n);
      LowIsNotStuck(s.snd.buffer, n, highest);
      var first, u := DrainOne(c, s, k, n);
      var rest;
      rest, t := LiveDrains(c, u, k);
      PathJoins(c, s, first, u, rest, t);
      steps := first + rest;
    } else {
      AllIsStuck(s.snd.buffer, highest);
      steps, t := [], s;
    }
  }

  lemma HasMaximum(s: set<int>) returns (k: int)
    requires s != {}
    ensures k in s && forall j :: j in s ==> j <= k
  {
    var mirrored := set x | x in s :: -x;
    HasMember(s);
    var y :| y in s;
    assert -y in mirrored;
    var least := HasMinimum(mirrored);
    k := -least;
    assert forall j :: j in s ==> -j in mirrored;
  }

  lemma HighestStuck(buffer: map<int, Payload>, highest: int) returns (n: int)
    requires Total(Stuck(buffer, highest)) > 0
    ensures n in buffer && n > highest && Stuck(buffer - {n}, n) == map[]
  {
    var stuck := Stuck(buffer, highest);
    var k :| k in stuck;
    assert k in stuck.Keys;
    n := HasMaximum(stuck.Keys);
    assert forall j :: j in buffer && j > highest ==> j in stuck.Keys;
  }

  lemma RoomForOne(c: Config, s: State, k: nat)
    requires Live(c, s) && CaughtUp(s, k) && Lowest(s.w, k) && Total(Beyond(s.rcv.tree, k)) <= c.rxBufferSize
    ensures s.rcv.size <= c.rxBufferSize
  {
    TreeIsBeyond(c, s, k);
    SmallSize(c, s);
  }

  /** With room for one, the highest number goes first; then none is above the highest number taken. */
  lemma HighestGoesFirst(c: Config, s: State, k: nat) returns (steps: seq<Step>, t: State)
    requires Live(c, s) && CaughtUp(s, k) && Lowest(s.w, k) && Passable(c, s, k)
    ensures Path(c, s, steps, t) && Live(c, t) && CaughtUp(t, k) && SameWriter(s, t) && t.closing == s.closing
    ensures Total(Stuck(t.snd.buffer, t.rcv.maxSequence)) == 0
  {
    if Total(Stuck(s.snd.buffer, s.rcv.maxSequence)) > 0 {
      RoomForOne(c, s, k);
      var n := HighestStuck(s.snd.buffer, s.rcv.maxSequence);
      BufferedIsEntered(c, s, n);
      steps, t := DrainOne(c, s, k, n);
    } else {
      steps, t := [], s;
    }
  }

  // ---------------------------------------------------------------- letting the next number in

  ghost predicate IsOpen(c: Config, s: State) {
    Budget(c.options, s.snd, s.closing) == 2
  }

  lemma EmptyIsOpen(c: Config, s: State)
    requires Inv(c, s) && Total(s.snd.buffer) == 0
    ensures IsOpen(c, s)
  {
  }

  lemma AsideStays(c: Config, s: State, t: State, k: nat)
    requires Passable(c, s, k) && Aside(s, t, k)
    ensures Passable(c, t, k)
  {
    TotalCovered(Stuck(t.snd.buffer, t.rcv.maxSequence), Stuck(s.snd.buffer, s.rcv.maxSequence));
  }

  /** What the receiver still takes is acked, and the send loop finds nothing with data left. */
  lemma LiveOpens(c: Config, s: State, k: nat) returns (steps: seq<Step>, t: State)
    requires Live(c, s) && Lowest(s.w, k) && Passable(c, s, k)
    ensures Path(c, s, steps, t) && Live(c, t) && SameWriter(s, t) && t.closing == s.closing && IsOpen(c, t)
  {
    var one, a := LiveCatchesUp(c, s, k);
    AsideStays(c, s, a, k);
    var two, b := HighestGoesFirst(c, a, k);
    PathJoins(c, s, one, a, two, b);
    var three;
    three, t := LiveDrains(c, b, k);
    PathJoins(c, s, one + two, b, three, t);
    steps := one + two + three;
    EmptyIsOpen(c, t);
  }

  /** `k` has entered the send buffer; the rest of the writer is as it was. */
  ghost predicate Entered(w: Writer, v: Writer, k: nat) {
    v == w.(offered := w.offered - {k}, entered := w.entered + {k}, current := v.current)
  }

  lemma LiveSends(c: Config, s: State, k: nat) returns (steps: seq<Step>, t: State)
    requires Live(c, s) && k in s.w.offered && k < |s.w.log| && IsOpen(c, s)
    ensures Path(c, s, steps, t) && Live(c, t) && t == Sent(s, k) && t.closing == s.closing
  {
    steps := Sends(c, s, k);
    t := Sent(s, k);
    LivePath(c, s, steps, t);
  }

  lemma EmptyPayloadLeavesOpen(c: Config, s: State, k: nat)
    requires k < |s.w.log| && s.w.log[k].data == [] && IsOpen(c, s)
    ensures IsOpen(c, Sent(s, k))
  {
  }

  /** A number without data, if one waits; only the writer's own has any. */
  lemma LightestWaiting(c: Config, s: State) returns (k: nat)
    requires Numbered(c, s.w, s.wire) && s.w.offered != {}
    ensures k in s.w.offered && k < |s.w.log| && (s.w.log[k].data == [] || s.w.offered == {k})
  {
    if n :| n in s.w.offered && s.w.log[n].data == [] {
      k := n;
    } else {
      k := HasMinimum(s.w.offered);
      assert s.w.offered == {k};
    }
  }

  /** An open buffer stays open until the last waiting number is in. */
  lemma LiveAdmits(c: Config, s: State) returns (steps: seq<Step>, t: State, k: nat)
    requires Live(c, s) && s.w.offered != {} && IsOpen(c, s)
    ensures Path(c, s, steps, t) && Live(c, t) && t.closing == s.closing
    ensures k in s.w.offered && Entered(s.w, t.w, k) && (IsOpen(c, t) || t.w.offered == {})
  {
    k := LightestWaiting(c, s);
    steps, t := LiveSends(c, s, k);
    if s.w.log[k].data == [] {
      EmptyPayloadLeavesOpen(c, s, k);
    }
  }

  /** What the last check let in may still enter. */
  lemma LiveEnters(c: Config, s: State, k: nat) returns (steps: seq<Step>, t: State)
    requires Live(c, s) && k in s.w.offered && k < |s.w.log| && s.budget > 0
    ensures Path(c, s, steps, t) && Live(c, t) && t.closing == s.closing
    ensures Entered(s.w, t.w, k) && t.budget == s.budget - 1
  {
    t := Apply(c, s, Enter(k));
    LiveStep(c, s, Enter(k));
    steps := OneStep(c, s, Enter(k));
  }

  // ---------------------------------------------------------------- finishing the write in progress

  const QUIET := WritePath.World(_ => [], _ => true)

  /** The write in progress can be cut to its end if no other goroutine takes numbers meanwhile. */
  predicate Cuttable(e: Endpoint, w: Writer) {
    w.writing.Some? ==> ValidWriting(w.writing.value) && WritePath.EmitWrite(e, w.writing.value, w.log, QUIET).outcome == WritePath.Sent
  }

  /** Everything that waits may enter now, or the buffer is open, or what is ahead of the lowest waiting number can be acked. */
  ghost predicate Promising(c: Config, s: State) {
    |s.w.offered| <= s.budget || IsOpen(c, s) || forall k: nat :: Lowest(s.w, k) ==> Passable(c, s, k)
  }

  /** Room for headers and prefix, and a number for every byte left, is enough. */
  lemma RoomIsEnough(e: Endpoint, w: Writer, origin: Write)
    requires w.writing.Some? && ValidWriting(w.writing.value) && Sufficient(e) && ValidWrite(origin)
    requires w.writing.value.first ==> w.writing.value == Begin(origin)
    requires e.mtu > 0 ==> WritePath.LeavesRoom(e, origin)
    requires |w.log| + |w.writing.value.rest| + (if w.writing.value.first then 1 else 0) <= TWO31
    ensures Cuttable(e, w)
  {
    WritePath.WriteNeverStuck(e, w.writing.value, origin, w.log, QUIET);
    NumbersSuffice(e, w.writing.value, w.log);
  }

  lemma {:induction false} NumbersSuffice(e: Endpoint, w: Writing, log: seq<Payload>)
    requires ValidWriting(w) && Sufficient(e) && |log| + |w.rest| + (if w.first then 1 else 0) <= TWO31
    ensures WritePath.EmitWrite(e, w, log, QUIET).outcome != WritePath.Exhausted
    decreases TWO31 - |log|
  {
    assert log + QUIET.others(|log|) == log;
    if Pending(e, w) && NextPayload(e, w, |log|).Cut? {
      if !w.first && e.mtu > 0 {
        WritePath.LaterNeverStuck(e, w, |log|);
      }
      var cut := NextPayload(e, w, |log|);
      NumbersSuffice(e, cut.next, log + [cut.payload]);
    }
  }

  lemma WritingIsPending(c: Config, s: State)
    requires Live(c, s) && s.w.writing.Some?
    ensures Pending(c.endpoint, s.w.writing.value) && ValidWriting(s.w.writing.value)
  {
  }

  lemma {:induction false} CutLeavesCuttable(e: Endpoint, w: Writer, p: Payload, next: Writing)
    requires ValidWriting(next) && WritePath.EmitWrite(e, next, w.log + [p], QUIET).outcome == WritePath.Sent
    ensures Cuttable(e, TakeChunk(e, w, p, next))
  {
  }

  lemma CutLeavesUnended(e: Endpoint, w: Writer, p: Payload, next: Writing)
    requires Unended(w) && !Stops(p)
    ensures Unended(TakeChunk(e, w, p, next))
  {
  }

  lemma LiveCut(c: Config, s: State, p: Payload, next: Writing)
    requires Live(c, s) && MayCut(s.w) && NextPayload(c.endpoint, s.w.writing.value, |s.w.log|) == Cut(p, next) && !Stops(p)
    ensures Enabled(c, s, CutOne(p, next))
    ensures Live(c, s.(w := TakeChunk(c.endpoint, s.w, p, next)))
  {
    CutLeavesUnended(c.endpoint, s.w, p, next);
    LiveStep(c, s, CutOne(p, next));
  }

  lemma CutIsPromising(c: Config, s: State, p: Payload, next: Writing)
    requires Live(c, s) && s.w.offered == {}
    ensures Promising(c, s.(w := TakeChunk(c.endpoint, s.w, p, next)))
  {
    NothingAhead(c, s, TakeChunk(c.endpoint, s.w, p, next));
  }

  /** Nothing is ahead of a number just taken. */
  lemma NothingAhead(c: Config, s: State, v: Writer)
    requires Numbered(c, s.w, s.wire) && Receiving(s.w.log, s.wire, s.rcv, s.taken)
    requires v.offered == {|s.w.log|} && |v.log| == |s.w.log| + 1
    ensures Promising(c, s.(w := v))
  {
    var t := s.(w := v);
    assert Beyond(t.rcv.tree, |s.w.log|) == map[];
    forall k: nat | Lowest(t.w, k) ensures Passable(c, t, k) {
      assert |s.w.log| in t.w.offered && k == |s.w.log|;
    }
  }

  lemma LiveCuts(c: Config, s: State) returns (p: Payload, next: Writing)
    requires Live(c, s) && s.w.writing.Some? && s.w.current.None? && s.w.offered == {} && Cuttable(c.endpoint, s.w)
    ensures Enabled(c, s, CutOne(p, next))
    ensures var v := TakeChunk(c.endpoint, s.w, p, next); Live(c, s.(w := v)) && Cuttable(c.endpoint, v) && Promising(c, s.(w := v))
  {
    WritingIsPending(c, s);
    p, next := WritePath.SentStartsWithCut(c.endpoint, s.w.writing.value, s.w.log, QUIET);
    LiveCut(c, s, p, next);
    CutLeavesCuttable(c.endpoint, s.w, p, next);
    CutIsPromising(c, s, p, next);
  }

  lemma FinishedIsDelivered(c: Config, s: State)
    requires Live(c, s) && CaughtUp(s, |s.w.log|) && s.w.writing.None?
    ensures DataOf(s.consumer.out) == s.w.written
  {
    assert s.w.log[..s.taken] == s.w.log;
  }

  lemma LowestOffered(w: Writer) returns (k: nat)
    requires w.offered != {} && forall n :: n in w.offered ==> n < |w.log|
    ensures Lowest(w, k) && k in w.offered
  {
    k := HasMinimum(w.offered);
  }

  function Left(w: Writer): int {
    if w.writing.Some? then TWO31 - |w.log| + 1 else 0
  }

  function Holds(w: Writer): nat {
    if w.current.Some? then 1 else 0
  }

  ghost predicate Less(v: Writer, w: Writer) {
    && v.written == w.written
    && (Left(v) < Left(w) || (Left(v) == Left(w) && (|v.offered| < |w.offered| || (v.offered == w.offered && Holds(v) < Holds(w)))))
  }

  lemma EnteredIsLess(w: Writer, v: Writer, k: nat)
    requires Entered(w, v, k) && k in w.offered
    ensures Less(v, w)
  {
  }

  lemma CutIsLess(e: Endpoint, w: Writer, p: Payload, next: Writing)
    requires w.writing.Some? && |w.log| < TWO31
    ensures Less(TakeChunk(e, w, p, next), w)
  {
  }

  /** While anything waits, some schedule lets one number in. */
  lemma LiveLetsIn(c: Config, s: State) returns (steps: seq<Step>, t: State, k: nat)
    requires Live(c, s) && Promising(c, s) && s.w.offered != {}
    ensures Path(c, s, steps, t) && Live(c, t) && t.closing == s.closing && Promising(c, t)
    ensures k in s.w.offered && Entered(s.w, t.w, k)
  {
    LogIsShort(c, s);
    if |s.w.offered| <= s.budget {
      k := LowestOffered(s.w);
      steps, t := LiveEnters(c, s, k);
    } else if IsOpen(c, s) {
      steps, t, k := LiveAdmits(c, s);
    } else {
      var lowest := LowestOffered(s.w);
      var before, u := LiveOpens(c, s, lowest);
      var after;
      after, t, k := LiveAdmits(c, u);
      PathJoins(c, s, before, u, after, t);
      steps := before + after;
    }
  }

  /** The number the writer is offering has entered and goes on the wire. */
  lemma LiveForwards(c: Config, s: State) returns (steps: seq<Step>, t: State)
    requires Live(c, s) && s.w.offered == {} && s.w.current.Some?
    ensures Path(c, s, steps, t) && Live(c, t) && t.closing == s.closing && t.w == s.w.(current := None)
  {
    var n := s.w.current.value;
    LiveStep(c, s, Forward(n));
    t := Apply(c, s, Forward(n));
    steps := OneStep(c, s, Forward(n));
  }

  lemma LiveCutsOn(c: Config, s: State) returns (steps: seq<Step>, t: State)
    requires Live(c, s) && s.w.writing.Some? && s.w.current.None? && s.w.offered == {} && Cuttable(c.endpoint, s.w)
    ensures Path(c, s, steps, t) && Live(c, t) && t.closing == s.closing
    ensures Promising(c, t) && Cuttable(c.endpoint, t.w) && Less(t.w, s.w)
  {
    var p, next := LiveCuts(c, s);
    t := s.(w := TakeChunk(c.endpoint, s.w, p, next));
    steps := OneStep(c, s, CutOne(p, next));
    CutIsLess(c.endpoint, s.w, p, next);
  }

  /** While anything waits or is still to be cut, some schedule leaves less of it. */
  lemma LiveMoves(c: Config, s: State) returns (steps: seq<Step>, t: State)
    requires Live(c, s) && Promising(c, s) && Cuttable(c.endpoint, s.w) && !(s.w.offered == {} && s.w.writing.None?)
    ensures Path(c, s, steps, t) && Live(c, t) && t.closing == s.closing
    ensures Promising(c, t) && Cuttable(c.endpoint, t.w) && Less(t.w, s.w)
  {
    if s.w.offered != {} {
      var k;
      steps, t, k := LiveLetsIn(c, s);
      EnteredIsLess(s.w, t.w, k);
    } else if s.w.current.Some? {
      steps, t := LiveForwards(c, s);
    } else {
      steps, t := LiveCutsOn(c, s);
    }
  }

  /** The peer has got everything written, nothing is unacked, no number was given up and the buffer was not told to close. */
  ghost predicate Finished(s: State, t: State) {
    && DataOf(t.consumer.out) == t.w.written == s.w.written && t.snd.buffer == map[]
    && t.w.burned == {} && t.closing == s.closing
  }

  lemma LiveEnds(c: Config, s: State) returns (steps: seq<Step>, t: State)
    requires Live(c, s) && s.w.offered == {} && s.w.writing.None?
    ensures Path(c, s, steps, t) && Finished(s, t)
  {
    var k := |s.w.log|;
    var one, a := LiveCatchesUp(c, s, k);
    var two;
    two, t := LiveDrains(c, a, k);
    PathJoins(c, s, one, a, two, t);
    steps := one + two;
    TreeIsBeyond(c, a, k);
    NothingAbove(c, a);
    FinishedIsDelivered(c, t);
  }

  lemma NothingAbove(c: Config, s: State)
    requires Inv(c, s) && s.rcv.sequence + 1 == |s.w.log|
    ensures Stuck(s.snd.buffer, s.rcv.maxSequence) == map[]
  {
  }

  lemma {:induction false} LiveFinishes(c: Config, s: State) returns (steps: seq<Step>, t: State)
    requires Live(c, s) && Promising(c, s) && Cuttable(c.endpoint, s.w)
    ensures Path(c, s, steps, t) && Finished(s, t)
    decreases Left(s.w), |s.w.offered|, Holds(s.w)
  {
    LogIsShort(c, s);
    if s.w.offered == {} && s.w.writing.None? {
      steps, t := LiveEnds(c, s);
    } else {
      var first, u := LiveMoves(c, s);
      LogIsShort(c, u);
      var rest;
      rest, t := LiveFinishes(c, u);
      PathJoins(c, s, first, u, rest, t);
      steps := first + rest;
    }
  }

  lemma LogIsShort(c: Config, s: State)
    requires Inv(c, s)
    ensures |s.w.log| <= TWO31 && forall n :: n in s.w.offered ==> n < |s.w.log|
  {
  }

  /** A reachable state with no burned number, no end payload, a queue slot, a txer that has not returned, and a write in progress that can be cut to its end. */
  ghost predicate Alive(c: Config, s: State) {
    && ValidConfig(c) && Reachable(c, s) && Unended(s.w) && !s.phase.Halted? && c.txQueueSize >= 1
    && Cuttable(c.endpoint, s.w)
  }

  lemma AliveIsLive(c: Config, s: State)
    requires Alive(c, s)
    ensures Live(c, s)
  {
    ReachableKeeps(c, s);
    ReachableIsFated(c, s);
  }

  /**
   From every such state in which the waiting numbers may enter, the buffer is open, or the
   receiver has room for one more payload beyond the lowest waiting number or refuses no data:
   some schedule finishes the write in progress, gives the peer exactly what was written and
   leaves nothing unacked, without giving up a number or closing the buffer.
   */
  lemma CanAlwaysFinish(c: Config, s: State) returns (steps: seq<Step>, t: State)
    requires Alive(c, s) && Promising(c, s)
    ensures Path(c, s, steps, t) && Finished(s, t)
  {
    AliveIsLive(c, s);
    steps, t := LiveFinishes(c, s);
  }

  /** A buffer that is told to close lets everything in, so then every such state can finish. */
  lemma ClosingFinishes(c: Config, s: State) returns (steps: seq<Step>, t: State)
    requires Alive(c, s)
    ensures Path(c, s, [CloseWhenEmpty] + steps, t) && Finished(s.(closing := true), t)
  {
    AliveIsLive(c, s);
    LiveStep(c, s, CloseWhenEmpty);
    steps, t := LiveFinishes(c, Apply(c, s, CloseWhenEmpty));
    PathStep(c, s, CloseWhenEmpty, steps, t);
  }

  lemma ReachableIsFated(c: Config, s: State)
    requires ValidConfig(c) && Reachable(c, s)
    ensures Fated(s.w, s.wire) && Endless(s.w)
  {
    var states, run :| IsRun(c, states, run) && s in states;
    var i: nat :| i < |states| && states[i] == s;
    RunIsFated(c, states, run, i);
  }
}
