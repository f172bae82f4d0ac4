/** What the window lets in: the verdict of every check of a run, and runs that keep the window full. */
module CircuitWindow {
  import opened Bytes
  import opened Circuit
  import opened CircuitPaths
  import opened CircuitProofs
  import opened CircuitRuns
  import opened CircuitSignals
  import opened CircuitTheorems
  import opened Messages
  import opened Segmentation
  import opened SendBuffer
  import opened Weights

  // ---------------------------------------------------------------- what a check decides

  /** The receive size in the ack that arrived last; zero before the first. */
  function LastHeard(steps: seq<Step>, i: nat): uint32
    requires i <= |steps|
  {
    if i == 0 then 0 else if steps[i - 1].AckArrives? then steps[i - 1].ack.recvBufferSize else LastHeard(steps, i - 1)
  }

  lemma OthersKeepSender(c: Config, s: State, step: Step)
    requires Enabled(c, s, step) && !step.Enter? && !step.AckArrives? && !step.Retransmit?
    ensures Apply(c, s, step).snd == s.snd
  {
  }

  lemma HeardStep(c: Config, s: State, step: Step)
    requires Enabled(c, s, step)
    ensures Apply(c, s, step).snd.recvSize == if step.AckArrives? then step.ack.recvBufferSize else s.snd.recvSize
  {
    if step.AckArrives? {
      AckWindow(c.options, s.snd, step.ack, step.now);
    } else if step.Retransmit? {
      RetransmitAlike(c.options, s.snd, s.snd, step.count);
    } else if !step.Enter? {
      OthersKeepSender(c, s, step);
    }
  }

  lemma {:induction false} RunHears(c: Config, states: seq<State>, steps: seq<Step>, i: nat)
    requires IsRun(c, states, steps) && i < |states|
    ensures states[i].snd.recvSize == LastHeard(steps, i)
  {
    if i > 0 {
      RunHears(c, states, steps, i - 1);
      HeardStep(c, states[i - 1], steps[i - 1]);
    }
  }

  /** The bytes outstanding are within the window, and the size heard last is within the largest one. */
  ghost predicate WithinWindows(c: Config, s: State, heard: uint32) {
    Total(s.snd.buffer) <= s.snd.windowSize && heard <= c.options.maxSize
  }

  /**
   In every run a check lets two payloads in if the buffer is closing, holds no byte, or both
   windows are kept, and none otherwise.
   */
  lemma {:induction false} CheckDecides(c: Config, states: seq<State>, steps: seq<Step>, i: nat)
    requires ValidConfig(c) && SenderFits32(c) && IsRun(c, states, steps) && i < |steps| && steps[i] == Check
    ensures var s := states[i];
            states[i + 1].budget == if s.closing || Total(s.snd.buffer) == 0 || WithinWindows(c, s, LastHeard(steps, i)) then 2 else 0
  {
    RunHears(c, states, steps, i);
    RunKeeps(c, states, steps, i);
    if !states[i].closing {
      ExactlyCounted(c, states[i]);
    }
  }

  lemma ExactlyCounted(c: Config, s: State)
    requires SenderInv(c, s) && SenderFits32(c) && !s.closing
    ensures s.snd.sendSize == Total(s.snd.buffer)
  {
    BoundedTotal(c, s.snd, s.budget);
    SmallStays(Total(s.snd.buffer));
  }

  lemma SizelessReads(ack: Acknowledgement)
    ensures var full := MarshallAck(ack);
            UnmarshallAck(full.(headers := full.headers - {HEADER_KEY_RECV_BUFFER_SIZE})) == Ok(ack.(recvBufferSize := TWO32 - 1))
  {
    SequenceRoundTrip(ack.sequence);
  }

  lemma LargestBlocks(o: Options, s: Send, numbers: seq<int>, rtt: uint16, now: nat)
    requires o.maxSize < TWO32 - 1
    ensures var t := ReceiveAck(o, s, Ack(numbers, TWO32 - 1, rtt), now); t.sendSize != 0 ==> Budget(o, t, false) == 0
  {
    AckWindow(o, s, Ack(numbers, TWO32 - 1, rtt), now);
  }

  /** An ack without the size header reads as the largest size, so a sender that holds anything is blocked by it. */
  lemma SizelessAckBlocks(o: Options, s: Send, ack: Acknowledgement, numbers: seq<int>, now: nat)
    requires o.maxSize < TWO32 - 1
    ensures var full := MarshallAck(ack);
            var read := UnmarshallAck(full.(headers := full.headers - {HEADER_KEY_RECV_BUFFER_SIZE}));
            && read == Ok(ack.(recvBufferSize := TWO32 - 1))
            && var t := ReceiveAck(o, s, Ack(numbers, read.value.recvBufferSize, read.value.rtt), now);
            t.sendSize != 0 ==> Budget(o, t, false) == 0
  {
    SizelessReads(ack);
    LargestBlocks(o, s, numbers, ack.rtt, now);
  }

  // ---------------------------------------------------------------- a full window

  function BytesOf(ms: seq<Write>): nat {
    if ms == [] then 0 else BytesOf(ms[..|ms| - 1]) + |ms[|ms| - 1].buffer|
  }

  predicate AllValid(c: Config, ms: seq<Write>) {
    |ms| <= TWO31 && forall i :: 0 <= i < |ms| ==> ValidWrite(ms[i]) && |ms[i].buffer| <= c.maxPayload
  }

  /** The payloads of these writes, in order. */
  ghost predicate AllWhole(c: Config, log: seq<Payload>, ms: seq<Write>) {
    |log| == |ms| <= TWO31 && forall n :: 0 <= n < |ms| ==> log[n] == Whole(c, ms[n], n)
  }

  ghost predicate Keeps(buffer: map<int, Payload>, log: seq<Payload>) {
    (forall n :: n in buffer <==> 0 <= n < |log|) && forall n :: 0 <= n < |log| ==> buffer[n] == log[n]
  }

  /** All these writes are in the send buffer and on the wire at once, and no ack was ever sent. */
  ghost predicate Outstanding(c: Config, s: State, ms: seq<Write>) {
    && AllWhole(c, s.w.log, ms) && Keeps(s.snd.buffer, s.w.log)
    && (forall n: nat :: n in s.wire <==> n < |ms|) && s.acks == {}
    && s.w.writing.None? && s.w.current.None?
    && s.snd.sendSize == BytesOf(ms) && s.snd.recvSize == 0 && s.snd.windowSize == c.options.startSize
  }

  /** Any number of writes that together fit the first window can be outstanding at once, without a single ack. */
  lemma {:induction false} WindowFills(c: Config, ms: seq<Write>) returns (s: State)
    requires ValidConfig(c) && c.endpoint.mtu == 0 && AllValid(c, ms) && BytesOf(ms) <= c.options.startSize
    ensures Reachable(c, s) && Outstanding(c, s, ms)
    decreases |ms|
  {
    if ms == [] {
      InitReaches(c);
      NoneOutstanding(c);
      s := Init(c);
    } else {
      var front, last := FrontAndLast(c, ms);
      var a := WindowFills(c, front);
      s := OneMoreFits(c, a, front, last);
    }
  }

  lemma {:induction false} NoneOutstanding(c: Config)
    ensures Outstanding(c, Init(c), [])
  {
  }

  lemma {:induction false} FrontAndLast(c: Config, ms: seq<Write>) returns (front: seq<Write>, last: Write)
    requires ms != [] && AllValid(c, ms)
    ensures ms == front + [last] && |front| == |ms| - 1 && AllValid(c, front) && BytesOf(ms) == BytesOf(front) + |last.buffer|
    ensures ValidWrite(last) && |last.buffer| <= c.maxPayload
  {
    front, last := ms[..|ms| - 1], ms[|ms| - 1];
  }

  lemma OneMoreWhole(c: Config, log: seq<Payload>, ms: seq<Write>, m: Write)
    requires AllWhole(c, log, ms) && |ms| < TWO31
    ensures AllWhole(c, log + [Whole(c, m, |ms|)], ms + [m])
  {
  }

  lemma OneMoreKept(buffer: map<int, Payload>, log: seq<Payload>, p: Payload)
    requires Keeps(buffer, log) && p.sequence == |log|
    ensures Keeps(buffer[|log| := p], log + [p])
  {
  }

  lemma {:induction false} OneMoreCounted(ms: seq<Write>, m: Write, size: uint32)
    requires size == BytesOf(ms) && BytesOf(ms) + |m.buffer| < TWO32
    ensures ToU32(size + |m.buffer|) == BytesOf(ms + [m])
  {
    assert (ms + [m])[..|ms|] == ms;
    SmallStays(size + |m.buffer|);
  }

  lemma {:induction false} OneMoreOutstanding(c: Config, a: State, ms: seq<Write>, m: Write)
    requires Outstanding(c, a, ms) && |ms| < TWO31 && BytesOf(ms) + |m.buffer| < TWO32
    ensures Outstanding(c, Sent(Offering(c, a, m), |ms|), ms + [m])
  {
    OneMoreWhole(c, a.w.log, ms, m);
    OneMoreKept(a.snd.buffer, a.w.log, Whole(c, m, |ms|));
    OneMoreCounted(ms, m, a.snd.sendSize);
  }

  lemma OneMoreFits(c: Config, a: State, ms: seq<Write>, m: Write) returns (s: State)
    requires c.endpoint.mtu == 0 && ValidWrite(m) && |m.buffer| <= c.maxPayload && |ms| < TWO31
    requires Reachable(c, a) && Outstanding(c, a, ms) && BytesOf(ms) + |m.buffer| <= c.options.startSize
    ensures Reachable(c, s) && Outstanding(c, s, ms + [m])
  {
    var b := Offering(c, a, m);
    var one := Offers(c, a, m);
    ReachesOn(c, a, one, b);
    var two := Sends(c, b, |ms|);
    s := Sent(b, |ms|);
    ReachesOn(c, b, two, s);
    OneMoreOutstanding(c, a, ms, m);
  }
}
