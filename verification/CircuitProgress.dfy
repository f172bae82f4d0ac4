/**
 States from which a circuit may still finish: no lost number, no end payload, a txer that runs.
 In each of them the txer can catch up with everything below the lowest number that waits.
 */
module CircuitProgress {
  import opened Bytes
  import opened Circuit
  import opened CircuitPaths
  import opened CircuitProofs
  import opened CircuitTheorems
  import opened Messages
  import opened ReceiveBuffer
  import opened Segmentation
  import opened SendBuffer
  import opened StreamProofs
  import WritePath

  // ---------------------------------------------------------------- every number has a fate

  ghost predicate Fated(w: Writer, wire: set<nat>) {
    forall n: nat :: n < |w.log| ==> n in w.offered || n in w.entered || n in w.burned || n in wire
  }

  lemma FateStep(c: Config, s: State, step: Step)
    requires Fated(s.w, s.wire) && Enabled(c, s, step)
    ensures Fated(Apply(c, s, step).w, Apply(c, s, step).wire)
  {
    if !OfWriter(step) && !step.Enter? && !step.Forward? {
      WriterUntouched(c, s, step);
      WireUntouched(c, s, step);
    }
  }

  lemma WireUntouched(c: Config, s: State, step: Step)
    requires Enabled(c, s, step) && !OfWriter(step) && !step.Forward?
    ensures Apply(c, s, step).wire == s.wire
  {
  }

  ghost predicate Unended(w: Writer) {
    w.burned == {} && forall i :: 0 <= i < |w.log| ==> !Stops(w.log[i])
  }

  /** Without lost numbers and end payloads, nothing stops the txer. */
  ghost predicate Endless(w: Writer) {
    Unended(w) ==> !Replay(w.log).stopped
  }

  lemma CutIsEndless(c: Config, w: Writer, p: Payload, next: Writing)
    requires Endless(w) && Mirrored(c, w) && MayCut(w) && NextPayload(c.endpoint, w.writing.value, |w.log|) == Cut(p, next)
    ensures Endless(TakeChunk(c.endpoint, w, p, next))
  {
    var v := TakeChunk(c.endpoint, w, p, next);
    if Unended(v) {
      assert forall i :: 0 <= i < |w.log| ==> w.log[i] == v.log[i];
      CutIsAbsorbed(c.endpoint, w.writing.value, |w.log|, Replay(w.log), w.written[|w.written| - 1].data, p, next);
      WritePath.ReplaySnoc(w.log, p);
    }
  }

  lemma ControlIsEndless(w: Writer, v: Writer, p: Payload)
    requires Endless(w) && IsControl(p) && v.log == w.log + [p] && v.burned == w.burned
    ensures Endless(v)
  {
    if Unended(v) {
      assert forall i :: 0 <= i < |w.log| ==> w.log[i] == v.log[i];
      assert !Stops(v.log[|w.log|]);
      ControlTracks(Replay(w.log), p);
      WritePath.ReplaySnoc(w.log, p);
    }
  }

  lemma LogAndBurnedUntouched(c: Config, s: State, step: Step)
    requires Enabled(c, s, step) && (!OfWriter(step) || step.BeginWrite?)
    ensures Apply(c, s, step).w.log == s.w.log && Apply(c, s, step).w.burned == s.w.burned
  {
    if !step.BeginWrite? && !step.Enter? && !step.Forward? {
      WriterUntouched(c, s, step);
    }
  }

  lemma EndlessStep(c: Config, s: State, step: Step)
    requires Endless(s.w) && Mirrored(c, s.w) && Enabled(c, s, step)
    ensures Endless(Apply(c, s, step).w)
  {
    if step.CutOne? {
      CutIsEndless(c, s.w, step.p, step.next);
    } else if step.CutFails? {
      assert |s.w.log| in TakeFailing(s.w, step.p).burned;
    } else if step.Control? {
      ControlIsEndless(s.w, TakeControl(s.w, step.p), step.p);
    } else if step.EndCircuit? {
      ControlIsEndless(s.w, s.w.(log := s.w.log + [step.p]), step.p);
    } else if step.Burn? {
      assert step.n in BurnNumber(s.w, step.n).burned;
    } else {
      LogAndBurnedUntouched(c, s, step);
    }
  }

  lemma {:induction false} RunIsFated(c: Config, states: seq<State>, steps: seq<Step>, i: nat)
    requires ValidConfig(c) && IsRun(c, states, steps) && i < |states|
    ensures Fated(states[i].w, states[i].wire) && Endless(states[i].w)
  {
    if i > 0 {
      RunIsFated(c, states, steps, i - 1);
      RunKeeps(c, states, steps, i - 1);
      FateStep(c, states[i - 1], steps[i - 1]);
      EndlessStep(c, states[i - 1], steps[i - 1]);
    }
  }

  // ---------------------------------------------------------------- live states

  ghost predicate Live(c: Config, s: State) {
    && Inv(c, s) && Fated(s.w, s.wire) && Endless(s.w) && Unended(s.w)
    && !s.phase.Halted? && c.txQueueSize >= 1
  }

  lemma LiveStep(c: Config, s: State, step: Step)
    requires Live(c, s) && Enabled(c, s, step) && Unended(Apply(c, s, step).w) && !Apply(c, s, step).phase.Halted?
    ensures Live(c, Apply(c, s, step))
  {
    StepKeeps(c, s, step);
    FateStep(c, s, step);
    EndlessStep(c, s, step);
  }

  /** Steps of the send loop, the network and the ingest workers. */
  predicate Gentle(step: Step) {
    || step.Check? || step.Enter? || step.Forward? || step.AckArrives? || step.Retransmit?
    || step.Receive? || step.ReadSize? || step.StoreAck?
  }

  lemma GentleFrames(c: Config, s: State, step: Step)
    requires Enabled(c, s, step) && Gentle(step)
    ensures var t := Apply(c, s, step);
            && t.w.log == s.w.log && t.w.burned == s.w.burned && t.w.written == s.w.written && t.w.writing == s.w.writing
            && t.phase == s.phase && t.consumer == s.consumer && t.closing == s.closing
  {
  }

  lemma {:induction false} LivePath(c: Config, s: State, steps: seq<Step>, t: State)
    requires Live(c, s) && Path(c, s, steps, t) && forall i :: 0 <= i < |steps| ==> Gentle(steps[i])
    ensures Live(c, t) && t.closing == s.closing
    decreases |steps|
  {
    if steps != [] {
      GentleFrames(c, s, steps[0]);
      LiveStep(c, s, steps[0]);
      LivePath(c, Apply(c, s, steps[0]), steps[1..], t);
    }
  }

  /** Nothing below `k` waits to enter the send buffer. */
  ghost predicate Below(w: Writer, k: nat) {
    k <= |w.log| && forall n :: n in w.offered ==> n >= k
  }

  predicate Idle(phase: Phase) {
    phase.Fetch? || phase.Primed?
  }

  /** Everything below `k` went through the txer, and nothing else is queued. */
  predicate CaughtUp(s: State, k: nat) {
    s.rcv.queue == [] && Idle(s.phase) && k <= s.rcv.sequence + 1
  }

  // ---------------------------------------------------------------- what is ahead of a gap

  /** What the tree holds beyond `n`. */
  ghost function Beyond(tree: map<int, Payload>, n: int): map<int, Payload> {
    map k | k in tree && k > n :: tree[k]
  }

  /** What the sender holds beyond the highest number the receiver ever took. */
  ghost function Stuck(buffer: map<int, Payload>, highest: int): map<int, Payload> {
    map k | k in buffer && k > highest :: buffer[k]
  }

  /** The send buffer and what the tree holds beyond `k` are as they were. */
  ghost predicate Aside(s: State, t: State, k: nat) {
    && t.snd == s.snd && t.closing == s.closing
    && Beyond(t.rcv.tree, k) == Beyond(s.rcv.tree, k) && t.rcv.maxSequence >= s.rcv.maxSequence
  }

  // ---------------------------------------------------------------- catching up

  function Rank(phase: Phase): nat {
    match phase
    case Holding(_) => 6
    case Handled(_, _) => 5
    case Checking(_) => 4
    case Reporting => 3
    case Reported(_) => 2
    case Primed => 1
    case Fetch => 1
    case Halted(_) => 0
  }

  function TxerWork(s: State): nat {
    10 * |s.rcv.queue| + Rank(s.phase)
  }

  lemma HandGoesOn(s: State)
    requires s.phase.Holding? && Replaying(s.w.log, s.phase, s.taken, s.consumer) && !Replay(s.w.log).stopped
    ensures HandleHand(s, true).phase.Handled?
  {
    var k := s.taken - 1;
    assert s.w.log[..s.taken] == s.w.log[..k] + [s.w.log[k]];
    WritePath.ReplaySnoc(s.w.log[..k], s.w.log[k]);
    if Replay(s.w.log[..s.taken]).stopped {
      WritePath.StoppedStays(s.w.log, s.taken);
    }
  }

  ghost predicate Shorter(s: State, t: State) {
    && t.w == s.w && t.wire == s.wire && t.rcv.sequence == s.rcv.sequence && !t.phase.Halted? && TxerWork(t) < TxerWork(s)
    && t.snd == s.snd && t.closing == s.closing && t.rcv.tree == s.rcv.tree && t.rcv.maxSequence == s.rcv.maxSequence
  }

  lemma HandleShortens(s: State)
    requires s.phase.Holding? && Replaying(s.w.log, s.phase, s.taken, s.consumer) && !Replay(s.w.log).stopped
    ensures Shorter(s, HandleHand(s, true))
  {
    HandGoesOn(s);
    HandleFrames(s, true);
  }

  lemma FetchShortens(c: Config, s: State)
    requires TxerStep(s).Some? && Idle(s.phase)
    ensures Enabled(c, s, TxerStep(s).value) && Shorter(s, Apply(c, s, TxerStep(s).value))
  {
  }

  lemma AdjustmentShortens(c: Config, s: State)
    requires s.phase.Handled? || s.phase.Checking?
    ensures Enabled(c, s, TxerStep(s).value) && Shorter(s, Apply(c, s, TxerStep(s).value))
  {
  }

  lemma ReportShortens(c: Config, s: State)
    requires s.phase.Reporting? || s.phase.Reported?
    ensures Enabled(c, s, TxerStep(s).value) && Shorter(s, Apply(c, s, TxerStep(s).value))
  {
  }

  lemma LiveTxerStep(c: Config, s: State)
    requires Live(c, s) && TxerStep(s).Some?
    ensures Enabled(c, s, TxerStep(s).value)
    ensures var t := Apply(c, s, TxerStep(s).value); Live(c, t) && Shorter(s, t)
  {
    if s.phase.Holding? {
      HandleShortens(s);
    } else if Idle(s.phase) {
      FetchShortens(c, s);
    } else if s.phase.Handled? || s.phase.Checking? {
      AdjustmentShortens(c, s);
    } else {
      ReportShortens(c, s);
    }
    LiveStep(c, s, TxerStep(s).value);
  }

  /** An idle, emptied receiver refuses nothing it waits for and queues it as soon as it arrives. */
  lemma IdleReceives(c: Config, s: State, p: Payload, worker: nat)
    requires Conserved(s.rcv, s.phase) && Ordered(s.rcv) && s.rcv.capacity >= 1
    requires Idle(s.phase) && s.rcv.queue == []
    requires p.sequence == s.rcv.sequence + 1 && p.sequence !in s.rcv.tree
    ensures !Refuses(s.rcv, p.sequence, c.rxBufferSize)
    ensures var r := Arrive(c, s, p, worker, 0).rcv;
            r.sequence == s.rcv.sequence + 1 && r.tree == s.rcv.tree && r.maxSequence >= s.rcv.maxSequence
  {
    if Refuses(s.rcv, p.sequence, c.rxBufferSize) {
      RefusalMeansEmptyTree(s.rcv, c.rxBufferSize);
    }
  }

  lemma {:induction false} AboveAll(s: set<nat>) returns (n: nat)
    ensures forall k :: k in s ==> k < n
    decreases |s|
  {
    if k :| k in s {
      var m := AboveAll(s - {k});
      n := if k < m then m else k + 1;
      assert forall j :: j in s ==> j == k || j in s - {k};
    } else {
      n := 0;
    }
  }

  /** The step that brings the next number into the queue: from the tree, or over the wire. */
  function AdvanceStep(s: State, n: nat, worker: nat): Step {
    if n in s.rcv.tree then Prime else Receive(n, worker, 0)
  }

  ghost predicate Closer(s: State, t: State) {
    && t.w == s.w && t.wire == s.wire && !t.phase.Halted? && t.rcv.sequence == s.rcv.sequence + 1
    && t.snd == s.snd && t.closing == s.closing && t.rcv.maxSequence >= s.rcv.maxSequence
    && t.rcv.tree == s.rcv.tree - {t.rcv.sequence}
  }

  lemma CloserIsAside(s: State, t: State, k: nat)
    requires Closer(s, t) && t.rcv.sequence < k
    ensures Aside(s, t, k)
  {
  }

  lemma AdvanceIsCloser(c: Config, s: State, n: nat, worker: nat)
    requires Conserved(s.rcv, s.phase) && Ordered(s.rcv) && Ready(c, s.rcv, s.phase) && c.txQueueSize >= 1
    requires s.rcv.queue == [] && Idle(s.phase) && worker !in s.arrivals
    requires n == s.rcv.sequence + 1 && n < |s.w.log| && s.w.log[n].sequence == n && n in s.wire
    ensures Enabled(c, s, AdvanceStep(s, n, worker)) && Closer(s, Apply(c, s, AdvanceStep(s, n, worker)))
  {
    if n !in s.rcv.tree {
      IdleReceives(c, s, s.w.log[n], worker);
    }
  }

  lemma LiveAdvances(c: Config, s: State, n: nat, worker: nat)
    requires Live(c, s) && s.rcv.queue == [] && Idle(s.phase) && worker !in s.arrivals
    requires n == s.rcv.sequence + 1 && n < |s.w.log| && n in s.wire
    ensures Enabled(c, s, AdvanceStep(s, n, worker))
    ensures var t := Apply(c, s, AdvanceStep(s, n, worker)); Live(c, t) && Closer(s, t)
  {
    AdvanceIsCloser(c, s, n, worker);
    LiveStep(c, s, AdvanceStep(s, n, worker));
  }

  function Unsent(s: State): nat {
    if s.rcv.sequence >= -1 && s.rcv.sequence + 1 in s.wire then 0 else 1
  }

  ghost predicate Nearer(s: State, t: State) {
    && t.w == s.w.(current := t.w.current) && t.rcv.sequence >= s.rcv.sequence
    && (t.rcv.sequence == s.rcv.sequence ==>
          TxerWork(t) < TxerWork(s) || (TxerWork(t) == TxerWork(s) && Unsent(t) < Unsent(s)))
  }

  lemma ForwardIsNearer(c: Config, s: State, n: nat)
    requires n in s.w.entered && n == s.rcv.sequence + 1 && n !in s.wire
    ensures Enabled(c, s, Forward(n)) && Nearer(s, Apply(c, s, Forward(n)))
  {
  }

  lemma NextIsANumber(s: State, k: nat)
    requires Receiving(s.w.log, s.wire, s.rcv, s.taken) && !CaughtUp(s, k) && TxerStep(s).None? && !s.phase.Halted?
    ensures 0 <= s.rcv.sequence + 1 < k && s.rcv.queue == [] && Idle(s.phase)
  {
  }

  lemma NextCanBeSent(w: Writer, wire: set<nat>, k: nat, n: nat)
    requires Fated(w, wire) && Unended(w) && Below(w, k) && n < k && n !in wire
    ensures n in w.entered
  {
  }

  /** A live state has caught up or has a step that brings it nearer to that. */
  lemma LiveSteps(c: Config, s: State, k: nat) returns (step: Step)
    requires Live(c, s) && Below(s.w, k) && !CaughtUp(s, k)
    ensures Enabled(c, s, step) && Live(c, Apply(c, s, step)) && Nearer(s, Apply(c, s, step)) && Aside(s, Apply(c, s, step), k)
  {
    if TxerStep(s).Some? {
      step := TxerStep(s).value;
      LiveTxerStep(c, s);
    } else {
      NextIsANumber(s, k);
      var n: nat := s.rcv.sequence + 1;
      if n in s.wire {
        var worker := AboveAll(s.arrivals.Keys);
        step := AdvanceStep(s, n, worker);
        LiveAdvances(c, s, n, worker);
        CloserIsAside(s, Apply(c, s, step), k);
      } else {
        NextCanBeSent(s.w, s.wire, k, n);
        step := Forward(n);
        ForwardIsNearer(c, s, n);
        LiveStep(c, s, step);
      }
    }
  }

  lemma {:induction false} LiveCatchesUp(c: Config, s: State, k: nat) returns (steps: seq<Step>, t: State)
    requires Live(c, s) && Below(s.w, k)
    ensures Path(c, s, steps, t) && Live(c, t) && CaughtUp(t, k) && t.w == s.w.(current := t.w.current) && Aside(s, t, k)
    decreases |s.w.log| - s.rcv.sequence, TxerWork(s), Unsent(s)
  {
    if CaughtUp(s, k) {
      steps, t := [], s;
    } else {
      var step := LiveSteps(c, s, k);
      var rest;
      SequenceIsBounded(c, Apply(c, s, step));
      rest, t := LiveCatchesUp(c, Apply(c, s, step), k);
      PathStep(c, s, step, rest, t);
      steps := [step] + rest;
    }
  }

  lemma SequenceIsBounded(c: Config, s: State)
    requires Inv(c, s)
    ensures s.rcv.sequence < |s.w.log|
  {
  }

  // ---------------------------------------------------------------- lost numbers

  /** A burned number blocks everything from itself on, in every state. */
  lemma BurnedBlocks(c: Config, s: State, n: nat)
    requires ValidConfig(c) && Reachable(c, s) && n in s.w.burned
    ensures s.rcv.sequence < n && s.taken <= n
    ensures forall k :: 0 <= k < |s.rcv.queue| ==> s.rcv.queue[k].sequence < n
  {
    ReachableKeeps(c, s);
    BurnedIsAhead(c, s, n);
  }

  lemma BurnedIsAhead(c: Config, s: State, n: nat)
    requires Numbered(c, s.w, s.wire) && Receiving(s.w.log, s.wire, s.rcv, s.taken) && n in s.w.burned
    ensures s.rcv.sequence < n && s.taken <= n
    ensures forall k :: 0 <= k < |s.rcv.queue| ==> s.rcv.queue[k].sequence < n
  {
    assert n !in s.wire;
    assert forall k :: 0 <= k < |s.rcv.queue| ==> s.rcv.queue[k] == s.w.log[s.taken + k];
  }
}
