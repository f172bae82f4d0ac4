/** What holds in every state of every run of a circuit. */
module CircuitTheorems {
  import opened Bytes
  import opened Circuit
  import opened CircuitPaths
  import opened CircuitProofs
  import opened Messages
  import opened ReceiveBuffer
  import opened Segmentation
  import opened SendBuffer
  import opened Varint
  import opened Weights
  import WritePath

  lemma {:induction false} RunKeeps(c: Config, states: seq<State>, steps: seq<Step>, i: nat)
    requires ValidConfig(c) && IsRun(c, states, steps) && i < |states|
    ensures Inv(c, states[i])
  {
    if i == 0 {
      InitHolds(c);
    } else {
      RunKeeps(c, states, steps, i - 1);
      StepKeeps(c, states[i - 1], steps[i - 1]);
    }
  }

  lemma ReachableKeeps(c: Config, s: State)
    requires ValidConfig(c) && Reachable(c, s)
    ensures Inv(c, s) && Quiet(s.w.log)
  {
    var states, steps :| IsRun(c, states, steps) && s in states;
    var i: nat :| i < |states| && states[i] == s;
    RunKeeps(c, states, steps, i);
    RunIsQuiet(c, states, steps, i);
  }

  // ---------------------------------------------------------------- ordered, exactly-once delivery

  /** Write-failed notices carry no bytes. */
  ghost predicate Quiet(log: seq<Payload>) {
    forall i :: 0 <= i < |log| && log[i].flags.writeFailed ==> log[i].data == []
  }

  lemma CutIsNoNotice(e: Endpoint, w: Writing, n: nat)
    requires ValidWriting(w) && n < TWO31 && NextPayload(e, w, n).Cut?
    ensures !NextPayload(e, w, n).payload.flags.writeFailed
  {
  }

  lemma {:induction false} RunIsQuiet(c: Config, states: seq<State>, steps: seq<Step>, i: nat)
    requires IsRun(c, states, steps) && i < |states|
    ensures Quiet(states[i].w.log)
  {
    if i > 0 {
      RunIsQuiet(c, states, steps, i - 1);
      QuietStep(c, states[i - 1], steps[i - 1]);
    }
  }

  lemma ClosingIsKept(c: Config, s: State, step: Step)
    requires Enabled(c, s, step) && (s.closing || step.CloseWhenEmpty?)
    ensures Apply(c, s, step).closing
  {
  }

  lemma LogUntouched(c: Config, s: State, step: Step)
    requires Enabled(c, s, step) && !OfWriter(step)
    ensures Apply(c, s, step).w.log == s.w.log
  {
    if !step.Enter? && !step.Forward? {
      WriterUntouched(c, s, step);
    }
  }

  lemma QuietStep(c: Config, s: State, step: Step)
    requires Quiet(s.w.log) && Enabled(c, s, step)
    ensures Quiet(Apply(c, s, step).w.log)
  {
    if !OfWriter(step) {
      LogUntouched(c, s, step);
    } else if step.CutOne? {
      CutIsNoNotice(c.endpoint, s.w.writing.value, |s.w.log|);
    }
  }

  ghost predicate QuietConsumer(r: Consumer) {
    && (r.assembly.Started? ==> !r.assembly.flags.writeFailed)
    && DeliveredBytes(r.out) == DeliveredBytes(DataOf(r.out))
  }

  lemma {:induction false} BytesSnoc(out: seq<Delivery>, d: Delivery)
    ensures DeliveredBytes(out + [d]) == DeliveredBytes(out) + d.data
  {
    assert (out + [d])[..|out|] == out;
  }

  lemma {:induction false} QuietSend(out: seq<Delivery>, d: Delivery)
    requires DeliveredBytes(out) == DeliveredBytes(DataOf(out)) && (d.notice ==> d.data == [])
    ensures DeliveredBytes(out + [d]) == DeliveredBytes(DataOf(out + [d]))
  {
    SnocData(out, d);
    BytesSnoc(out, d);
    if d.notice {
      assert DataOf(out + [d]) == DataOf(out);
    } else {
      BytesSnoc(DataOf(out), d);
    }
  }

  lemma SendIsQuiet(a: Assembly, p: Payload)
    requires (a.Started? ==> !a.flags.writeFailed) && (p.flags.writeFailed ==> p.data == [])
    ensures var r := TxStep(a, p);
            && (r.assembly.Started? ==> !r.assembly.flags.writeFailed)
            && (r.event.Send? && r.event.flags.writeFailed ==> r.event.data == [])
  {
  }

  /** A step of the txer keeps what it delivered or adds what it sends. */
  lemma ConsumeAdds(r: Consumer, p: Payload)
    ensures var t, x := Consume(r, p), TxStep(r.assembly, p);
            && (t.assembly == r.assembly || t.assembly == x.assembly)
            && (t.out == r.out || (x.event.Send? && t.out == r.out + [Delivery(x.event.data, x.event.headers, x.event.flags.writeFailed)]))
  {
  }

  lemma QuietConsume(r: Consumer, p: Payload)
    requires QuietConsumer(r) && (p.flags.writeFailed ==> p.data == [])
    ensures QuietConsumer(Consume(r, p))
  {
    SendIsQuiet(r.assembly, p);
    ConsumeAdds(r, p);
    var e := TxStep(r.assembly, p).event;
    if Consume(r, p).out != r.out {
      QuietSend(r.out, Delivery(e.data, e.headers, e.flags.writeFailed));
    }
  }

  lemma {:induction false} QuietReplay(log: seq<Payload>)
    requires Quiet(log)
    ensures QuietConsumer(Replay(log))
  {
    if log != [] {
      var n := |log| - 1;
      QuietReplay(log[..n]);
      QuietConsume(Replay(log[..n]), log[n]);
    }
  }

  lemma {:induction false} BytesPrefix(a: seq<Delivery>, b: seq<Delivery>)
    requires a <= b
    ensures DeliveredBytes(a) <= DeliveredBytes(b)
    decreases |b|
  {
    if |a| < |b| {
      BytesPrefix(a, b[..|b| - 1]);
    } else {
      assert a == b;
    }
  }

  /** What the peer was given comes from replaying a prefix of the log that holds no burned number. */
  lemma ReplayedPrefix(c: Config, s: State) returns (k: nat)
    requires Inv(c, s)
    ensures k <= s.taken <= |s.w.log| && Unburned(s.w.burned, k) && s.consumer.out == Replay(s.w.log[..k]).out
  {
    WireIsUnburned(c, s);
    if s.phase.Halted? {
      k :| k <= s.taken && s.consumer.out == Replay(s.w.log[..k]).out;
    } else {
      k := Processed(s.phase, s.taken);
    }
  }

  /** The messages whose last chunk has been put on the wire; Write returns after that. */
  function Completed(w: Writer): seq<Delivery> {
    if w.writing.Some? || w.current.Some? then AllButLast(w.written) else w.written
  }

  lemma OnlyCompletedIsOut(c: Config, s: State, k: nat)
    requires Numbered(c, s.w, s.wire) && Receiving(s.w.log, s.wire, s.rcv, s.taken) && k <= s.taken
    ensures Circuit.Limit(s.w, k) == Completed(s.w)
  {
    if s.w.current.Some? {
      assert s.w.current.value !in s.wire;
    }
  }

  /**
   The messages given to the peer are a prefix of the messages whose last chunk has been put on the
   wire: in order, each once, with their headers. So are the bytes, write-failed notices included
   since they carry none. One Write runs at a time.
   */
  lemma PrefixDelivery(c: Config, s: State)
    requires ValidConfig(c) && Reachable(c, s)
    ensures DataOf(s.consumer.out) <= Completed(s.w)
    ensures DeliveredBytes(s.consumer.out) <= DeliveredBytes(Completed(s.w))
  {
    ReachableKeeps(c, s);
    var k := ReplayedPrefix(c, s);
    QuietReplay(s.w.log[..k]);
    OnlyCompletedIsOut(c, s, k);
    BytesPrefix(DataOf(s.consumer.out), Completed(s.w));
  }

  lemma ConsumeGrows(r: Consumer, p: Payload)
    ensures r.out <= Consume(r, p).out
  {
  }

  lemma {:induction false} ReplayGrows(log: seq<Payload>, j: nat, k: nat)
    requires j <= k <= |log|
    ensures Replay(log[..j]).out <= Replay(log[..k]).out
    decreases k - j
  {
    if j < k {
      ReplayGrows(log, j, k - 1);
      assert log[..k] == log[..k - 1] + [log[k - 1]];
      WritePath.ReplaySnoc(log[..k - 1], log[k - 1]);
      ConsumeGrows(Replay(log[..k - 1]), log[k - 1]);
    }
  }

  lemma EndReplays(log: seq<Payload>, k: nat, e: nat)
    requires k <= |log| && e < |log| && IsControl(log[e]) && Stops(log[e])
    ensures Replay(log[..k]).out <= Replay(log[..e]).out
  {
    if k <= e {
      ReplayGrows(log, k, e);
    } else {
      assert log[..e + 1] == log[..e] + [log[e]];
      WritePath.ReplaySnoc(log[..e], log[e]);
      EndConsumes(Replay(log[..e]), log[e]);
      assert log[..k][..e + 1] == log[..e + 1];
      WritePath.StoppedStays(log[..k], e + 1);
    }
  }

  lemma EndConsumes(r: Consumer, p: Payload)
    requires IsControl(p) && Stops(p)
    ensures Consume(r, p).stopped && Consume(r, p).out == r.out
  {
  }

  /** Nothing numbered after an end of file or end of circuit ever reaches the peer. */
  lemma NothingAfterEnd(c: Config, s: State, e: nat)
    requires ValidConfig(c) && Reachable(c, s)
    requires e < |s.w.log| && IsControl(s.w.log[e]) && Stops(s.w.log[e])
    ensures s.consumer.out <= Replay(s.w.log[..e]).out
  {
    ReachableKeeps(c, s);
    var k := ReplayedPrefix(c, s);
    EndReplays(s.w.log, k, e);
  }

  lemma HaltedStep(c: Config, s: State, step: Step)
    requires Enabled(c, s, step) && s.phase.Halted?
    ensures var t := Apply(c, s, step);
            t.phase == s.phase && t.consumer == s.consumer && t.taken == s.taken
  {
  }

  /** Once tx has returned, in any way, the peer is given nothing more. */
  lemma {:induction false} HaltedStays(c: Config, states: seq<State>, steps: seq<Step>, i: nat, j: nat)
    requires IsRun(c, states, steps) && i <= j < |states| && states[i].phase.Halted?
    ensures states[j].phase == states[i].phase && states[j].consumer == states[i].consumer && states[j].taken == states[i].taken
    decreases j - i
  {
    if i < j {
      HaltedStays(c, states, steps, i, j - 1);
      HaltedStep(c, states[j - 1], steps[j - 1]);
    }
  }

  /** A message the peer refuses is the last one it is offered: it does not count as given, and nothing follows it. */
  lemma RefusalEndsIt(c: Config, states: seq<State>, steps: seq<Step>, i: nat, j: nat)
    requires IsRun(c, states, steps) && i < j < |states| && steps[i] == Handle(false)
    requires Consume(states[i].consumer, states[i].phase.p).out != states[i].consumer.out
    ensures states[j].phase.Halted? && states[j].consumer.out == states[i].consumer.out
  {
    HaltedStays(c, states, steps, i + 1, j);
  }

  // ---------------------------------------------------------------- nothing is lost

  /** Where an accepted number is. */
  ghost predicate Placed(s: State, n: nat) {
    || n < s.taken
    || (exists k :: 0 <= k < |s.rcv.queue| && s.rcv.queue[k].sequence == n)
    || n in s.rcv.tree
  }

  lemma AcceptedIsPlaced(c: Config, s: State, n: nat)
    requires Receiving(s.w.log, s.wire, s.rcv, s.taken) && Numbered(c, s.w, s.wire) && Accepted(s.rcv, n)
    ensures Placed(s, n)
  {
    if n >= s.taken && n !in s.rcv.tree {
      assert s.rcv.queue[n - s.taken] == s.w.log[n];
    }
  }

  /** Every number that entered the send buffer is still there, or the receiver has it in tree or queue or took it; acks list only such numbers. */
  lemma NoLoss(c: Config, s: State, n: nat)
    requires ValidConfig(c) && Reachable(c, s)
    ensures n in s.w.entered ==> n in s.snd.buffer || Placed(s, n)
    ensures n in s.snd.buffer ==> n < |s.w.log| && s.snd.buffer[n] == s.w.log[n]
    ensures forall ack :: ack in s.acks && n in ack.sequence ==> Placed(s, n)
  {
    ReachableKeeps(c, s);
    if Accepted(s.rcv, n) {
      AcceptedIsPlaced(c, s, n);
    }
  }

  lemma OthersKeepAccepted(c: Config, s: State, step: Step)
    requires Enabled(c, s, step) && !step.Receive? && !step.Prime?
    ensures Apply(c, s, step).rcv.tree == s.rcv.tree && Apply(c, s, step).rcv.sequence == s.rcv.sequence
  {
  }

  /** The receiver never gives back a number it accepted. */
  lemma AcceptedOnce(c: Config, s: State, step: Step, n: nat)
    requires Numbered(c, s.w, s.wire) && ReceiverInv(c, s) && Enabled(c, s, step) && Accepted(s.rcv, n)
    ensures Accepted(Apply(c, s, step).rcv, n)
  {
    if step.Receive? {
      ArriveReceives(c, s.w.log, s.wire, s.rcv, s.taken, s.phase, step.n);
    } else if step.Prime? {
      QueueNextKeeps(s.rcv);
    } else {
      OthersKeepAccepted(c, s, step);
    }
  }

  lemma RunReceives(c: Config, states: seq<State>, steps: seq<Step>, i: nat)
    requires ValidConfig(c) && IsRun(c, states, steps) && i < |states|
    ensures Numbered(c, states[i].w, states[i].wire) && ReceiverInv(c, states[i])
  {
    RunKeeps(c, states, steps, i);
  }

  lemma {:induction false} AcceptedStays(c: Config, states: seq<State>, steps: seq<Step>, i: nat, j: nat, n: nat)
    requires ValidConfig(c) && IsRun(c, states, steps) && i <= j < |states| && Accepted(states[i].rcv, n)
    ensures Accepted(states[j].rcv, n)
    decreases j - i
  {
    if i < j {
      AcceptedStays(c, states, steps, i, j - 1, n);
      RunReceives(c, states, steps, j - 1);
      AcceptedOnce(c, states[j - 1], steps[j - 1], n);
    }
  }

  // ---------------------------------------------------------------- what an ack answers

  datatype Delivered = Delivered(n: nat, rtt: uint16)

  /** What was last delivered to a worker, and with which stamp. */
  function LastDelivered(steps: seq<Step>, i: nat, worker: nat): Option<Delivered>
    requires i <= |steps|
  {
    if i == 0 then None
    else if steps[i - 1].Receive? && steps[i - 1].worker == worker then Some(Delivered(steps[i - 1].n, steps[i - 1].rtt))
    else LastDelivered(steps, i - 1, worker)
  }

  /** The worker acknowledges the payload it got last, with its stamp. */
  predicate AnswersLast(s: State, worker: nat, last: Option<Delivered>) {
    worker in s.arrivals ==> last.Some? && s.arrivals[worker].number == last.value.n && s.arrivals[worker].rtt == last.value.rtt
  }

  /** The sending side leaves the receiving side alone. */
  lemma SendingSideFrames(c: Config, s: State, step: Step)
    requires Enabled(c, s, step) && (OfWriter(step) || OfSender(step) || OfAcks(step))
    ensures var t := Apply(c, s, step);
            t.rcv == s.rcv && t.arrivals == s.arrivals && t.advertised == s.advertised && t.phase == s.phase
  {
    if OfWriter(step) {
      assert Apply(c, s, step) == s.(w := Apply(c, s, step).w, wire := Apply(c, s, step).wire);
    }
  }

  lemma ArrivalsFrame(c: Config, s: State, step: Step)
    requires Enabled(c, s, step) && !step.Receive? && !step.ReadSize? && !step.StoreAck?
    ensures Apply(c, s, step).arrivals == s.arrivals
  {
    if OfWriter(step) || OfSender(step) || OfAcks(step) {
      SendingSideFrames(c, s, step);
    }
  }

  lemma AnswersStep(c: Config, s: State, step: Step, worker: nat, last: Option<Delivered>)
    requires Numbered(c, s.w, s.wire) && Enabled(c, s, step) && AnswersLast(s, worker, last)
    ensures AnswersLast(Apply(c, s, step), worker,
                        if step.Receive? && step.worker == worker then Some(Delivered(step.n, step.rtt)) else last)
  {
    if !step.Receive? && !step.ReadSize? && !step.StoreAck? {
      ArrivalsFrame(c, s, step);
    }
  }

  lemma {:induction false} RunAnswers(c: Config, states: seq<State>, steps: seq<Step>, i: nat, worker: nat)
    requires ValidConfig(c) && IsRun(c, states, steps) && i < |states|
    ensures AnswersLast(states[i], worker, LastDelivered(steps, i, worker))
  {
    if i > 0 {
      RunAnswers(c, states, steps, i - 1, worker);
      RunReceives(c, states, steps, i - 1);
      AnswersStep(c, states[i - 1], steps[i - 1], worker, LastDelivered(steps, i - 1, worker));
    }
  }

  /** In every run, the ack a worker sends lists exactly the payload last delivered to it and echoes the stamp of that delivery. */
  lemma AckEchoes(c: Config, states: seq<State>, steps: seq<Step>, i: nat)
    requires ValidConfig(c) && IsRun(c, states, steps) && i < |steps| && steps[i].StoreAck?
    ensures var last := LastDelivered(steps, i, steps[i].worker);
            last.Some? && exists size :: states[i + 1].acks == states[i].acks + {Ack([last.value.n], size, last.value.rtt)}
  {
    RunAnswers(c, states, steps, i, steps[i].worker);
    var a := states[i].arrivals[steps[i].worker];
    assert states[i + 1].acks == states[i].acks + {Ack([a.number], a.read, a.rtt)};
  }

  // ---------------------------------------------------------------- byte accounting on both sides

  /** Outstanding bytes are counted exactly and exceed the maximum window by less than two payloads, until the buffer is told to close. */
  lemma OutstandingBound(c: Config, s: State)
    requires ValidConfig(c) && SenderFits32(c) && Reachable(c, s) && !s.closing
    ensures s.snd.sendSize == Total(s.snd.buffer) <= c.options.maxSize + 2 * c.maxPayload
    ensures s.snd.windowSize <= c.options.maxSize
  {
    ReachableKeeps(c, s);
    BoundedTotal(c, s.snd, s.budget);
    SmallStays(Total(s.snd.buffer));
  }

  /** The size counter is exactly the bytes in tree, queue and hand, never wraps, and is zero when they are all empty. */
  lemma SizeIsExact(c: Config, s: State)
    requires ValidConfig(c) && Fits32(c) && Reachable(c, s) && !s.closing
    ensures s.rcv.size == Held(s.rcv) + HandBytes(s.phase) <= Ceiling(c)
    ensures s.phase.Handled? ==>
              s.phase.released <= s.rcv.size
              && ReleaseSize(s.rcv.size, s.phase.released) == s.rcv.size - s.phase.released
    ensures s.rcv.tree == map[] && s.rcv.queue == [] && HandBytes(s.phase) == 0 ==> s.rcv.size == 0
  {
    ReachableKeeps(c, s);
    SmallIsExact(c, s.rcv, s.phase);
  }

  lemma SmallIsExact(c: Config, r: Recv, phase: Phase)
    requires Conserved(r, phase) && Occupied(r, phase) <= Ceiling(c) < TWO32
    requires phase.Handled? ==> phase.released == |phase.p.data|
    ensures r.size == Occupied(r, phase)
    ensures phase.Handled? ==> phase.released <= r.size && ReleaseSize(r.size, phase.released) == r.size - phase.released
  {
    var total := Occupied(r, phase);
    SmallStays(total);
    if phase.Handled? {
      ReleaseSizeSubtracts(total, phase.released);
      SmallStays(total - phase.released);
    }
  }

  /** Even where the counter wraps it is right modulo 2^32, so draining everything always brings it back to zero. */
  lemma DrainedIsZero(c: Config, s: State)
    requires ValidConfig(c) && Reachable(c, s)
    requires s.rcv.tree == map[] && s.rcv.queue == [] && HandBytes(s.phase) == 0
    ensures s.rcv.size == 0
  {
    ReachableKeeps(c, s);
  }

  predicate Room(r: Recv) {
    |r.queue| <= r.capacity
  }

  lemma RoomStep(c: Config, s: State, step: Step)
    requires Enabled(c, s, step) && Room(s.rcv)
    ensures Room(Apply(c, s, step).rcv) && Apply(c, s, step).rcv.capacity == s.rcv.capacity
  {
    if OfWriter(step) || OfSender(step) || OfAcks(step) {
      SendingSideFrames(c, s, step);
    }
  }

  /** In every state of every run the queue to the txer holds at most its capacity. */
  lemma {:induction false} QueueIsBounded(c: Config, states: seq<State>, steps: seq<Step>, i: nat)
    requires IsRun(c, states, steps) && i < |states|
    ensures |states[i].rcv.queue| <= c.txQueueSize && states[i].rcv.capacity == c.txQueueSize
  {
    if i > 0 {
      QueueIsBounded(c, states, steps, i - 1);
      RoomStep(c, states[i - 1], steps[i - 1]);
    }
  }

  // ---------------------------------------------------------------- the bytes a one-chunk message would leak

  /** What the txer gives back is short of the payload exactly for a chunk-flagged payload that is complete in itself and has a length prefix. */
  predicate Leaks(a: Assembly, p: Payload) {
    p.flags.chunk && a.Idle? && p.data != [] && Uvarint(p.data).read > 0 && Uvarint(p.data).value + Uvarint(p.data).read == |p.data|
  }

  lemma ReleaseIsWholeUnlessComplete(a: Assembly, p: Payload)
    ensures TxStep(a, p).released == |p.data| <==> !Leaks(a, p)
  {
  }

  /** Such a payload would deliver its message and leave the prefix bytes on the counter for ever. */
  lemma {:induction false} OneChunkMessageLeaks(p: Payload, message: seq<uint8>)
    requires p.flags.chunk && |message| < 0x8000_0000_0000_0000 && p.data == PutUvarint(|message|) + message
    ensures Leaks(Idle, p)
    ensures TxStep(Idle, p).event == TxEvent.Send(message, p.headers, p.flags)
    ensures |p.data| - TxStep(Idle, p).released == |PutUvarint(|message|)| > 0
  {
    UvarintRoundTrip(|message|, message);
    assert p.data[|PutUvarint(|message|)|..] == message;
  }

  lemma HandIsWhole(s: State)
    requires s.phase.Holding? && Replaying(s.w.log, s.phase, s.taken, s.consumer)
    requires Releasing(s.w.log, s.w.burned) && Unburned(s.w.burned, s.taken)
    ensures !Leaks(s.consumer.assembly, s.phase.p)
  {
    assert FullRelease(s.w.log, s.taken - 1);
    ReleaseIsWholeUnlessComplete(s.consumer.assembly, s.phase.p);
  }

  /** Write never sends one: whatever the txer takes off the queue it gives back whole. */
  lemma NoChunkLeaks(c: Config, s: State)
    requires ValidConfig(c) && Reachable(c, s) && s.phase.Holding?
    ensures !Leaks(s.consumer.assembly, s.phase.p)
  {
    ReachableKeeps(c, s);
    WireIsUnburned(c, s);
    HandIsWhole(s);
  }

  // ---------------------------------------------------------------- the receiver never wedges

  /** The txer's own next step, while it has one. */
  function TxerStep(s: State): Option<Step> {
    match s.phase
    case Holding(_) => Some(Handle(true))
    case Handled(_, _) => Some(Release)
    case Checking(_) => Some(CheckSize)
    case Reporting => Some(ReadReport)
    case Reported(_) => Some(StoreEmptyAck)
    case Fetch => if s.rcv.queue != [] then Some(FetchQueued) else None
    case Primed => if s.rcv.queue != [] then Some(FetchPrimed) else None
    case Halted(_) => None
  }

  /** The txer has something to do without anything arriving first. */
  predicate TxerCanStep(c: Config, s: State) {
    TxerStep(s).Some? && Enabled(c, s, TxerStep(s).value)
  }

  lemma FullMeansBusy(c: Config, s: State)
    requires Conserved(s.rcv, s.phase) && s.rcv.size > 0 && s.rcv.tree == map[] && !s.phase.Halted?
    ensures TxerCanStep(c, s)
  {
    assert Occupied(s.rcv, s.phase) != 0;
  }

  /**
   Refusing the payload the queue waits for: nothing waits in the tree, and the bytes that are in
   the way are in the queue or in the hands of a txer that can go on.
   */
  lemma RefusalIsTemporary(c: Config, s: State)
    requires ValidConfig(c) && Reachable(c, s) && !s.phase.Halted?
    requires Refuses(s.rcv, s.rcv.sequence + 1, c.rxBufferSize)
    ensures s.rcv.tree == map[] && TxerCanStep(c, s)
  {
    ReachableKeeps(c, s);
    RefusalMeansEmptyTree(s.rcv, c.rxBufferSize);
    FullMeansBusy(c, s);
  }

  lemma ReadyToFetch(c: Config, s: State)
    requires Ready(c, s.rcv, s.phase) && c.txQueueSize >= 1 && s.phase.Primed? && s.rcv.sequence + 1 in s.rcv.tree
    ensures Enabled(c, s, FetchPrimed) && !Enabled(c, s, FetchNil)
  {
  }

  /** With a queue slot, the consumer behind its own queueNext finds a payload whenever the next one in order is in the tree: it neither waits nor returns nil. */
  lemma NeverWaitsInVain(c: Config, s: State)
    requires ValidConfig(c) && Reachable(c, s) && c.txQueueSize >= 1
    requires s.phase.Primed? && s.rcv.sequence + 1 in s.rcv.tree
    ensures Enabled(c, s, FetchPrimed) && !Enabled(c, s, FetchNil)
  {
    ReachableKeeps(c, s);
    ReadyToFetch(c, s);
  }

  /** The next number the receiver needs is never lost: if it entered the send buffer, it is in the tree or still kept for retransmission. */
  lemma NextIsNeverLost(c: Config, s: State)
    requires ValidConfig(c) && Reachable(c, s)
    requires s.rcv.sequence + 1 in s.w.entered
    ensures s.rcv.sequence + 1 in s.rcv.tree || s.rcv.sequence + 1 in s.snd.buffer
  {
    ReachableKeeps(c, s);
  }
}
