/**
 When a circuit cannot finish although no number is lost: a number still waits outside a closed
 send buffer, data ahead of it has filled the receiver, more of it is refused, and nothing the
 sender can still hear opens the buffer. Neither side can move until the number is given up or the
 buffer is told to close.
 */
module CircuitWedge {
  import opened Bytes
  import opened Circuit
  import opened CircuitFinish
  import opened CircuitPaths
  import opened CircuitProgress
  import opened CircuitProofs
  import opened CircuitRuns
  import opened CircuitSignals
  import opened CircuitTheorems
  import opened Messages
  import opened ReceiveBuffer
  import opened Segmentation
  import opened SendBuffer
  import opened Weights

  /** The receiver may still advertise a size that does not block the sender. */
  ghost predicate MayBeSmall(c: Config, s: State, n: nat) {
    Total(Beyond(s.rcv.tree, n)) <= c.options.maxSize
  }

  /** `n` waits, the receiver is full beyond it, and data is refused. */
  ghost predicate Jammed(c: Config, s: State, n: nat) {
    && n in s.w.offered && !s.closing && s.budget == 0
    && Total(Beyond(s.rcv.tree, n)) > c.rxBufferSize
    && Total(Stuck(s.snd.buffer, s.rcv.maxSequence)) > 0
  }

  ghost predicate Wedged(c: Config, s: State, n: nat) {
    Jammed(c, s, n) && !CanOpen(c, s, MayBeSmall(c, s, n))
  }

  /** The step that gives the number up, or opens the buffer. */
  predicate Unwedges(step: Step, n: nat) {
    step == Burn(n) || step.CloseWhenEmpty?
  }

  /** No step gives `n` up or opens the buffer. */
  predicate Spares(steps: seq<Step>, n: nat) {
    forall i :: 0 <= i < |steps| ==> !Unwedges(steps[i], n)
  }

  lemma SparesOn(steps: seq<Step>, n: nat)
    requires steps != []
    ensures Spares(steps, n) <==> !Unwedges(steps[0], n) && Spares(steps[1..], n)
  {
    assert forall i :: 1 <= i < |steps| ==> steps[i] == steps[1..][i - 1];
  }

  // ---------------------------------------------------------------- nothing new is heard

  /** Whatever can be heard in `t` could be heard in `s`. */
  ghost predicate Narrower(c: Config, s: State, t: State, n: nat) {
    && t.closing == s.closing
    && forall signal :: Possible(c, t, MayBeSmall(c, t, n), signal) ==> Possible(c, s, MayBeSmall(c, s, n), signal)
  }

  lemma StaysShut(c: Config, s: State, t: State, n: nat)
    requires !CanOpen(c, s, MayBeSmall(c, s, n)) && Narrower(c, s, t, n) && t.snd == s.snd
    ensures !CanOpen(c, t, MayBeSmall(c, t, n))
  {
    forall signals ensures !Opening(c, t, MayBeSmall(c, t, n), signals) {
      assert !Opening(c, s, MayBeSmall(c, s, n), signals);
    }
  }

  /** What was heard just now is one more signal in front. */
  lemma HeardFirst(c: Config, s: State, t: State, n: nat, signal: Signal)
    requires !CanOpen(c, s, MayBeSmall(c, s, n)) && Narrower(c, s, t, n)
    requires Possible(c, s, MayBeSmall(c, s, n), signal) && t.snd == Hear(c.options, s.snd, signal)
    ensures !CanOpen(c, t, MayBeSmall(c, t, n))
  {
    forall signals ensures !Opening(c, t, MayBeSmall(c, t, n), signals) {
      var longer := [signal] + signals;
      assert longer[0] == signal && longer[1..] == signals;
      assert !Opening(c, s, MayBeSmall(c, s, n), longer);
    }
  }

  lemma ShutIsBlocked(c: Config, s: State, n: nat)
    requires !CanOpen(c, s, MayBeSmall(c, s, n))
    ensures Budget(c.options, s.snd, s.closing) == 0
  {
    assert !Opening(c, s, MayBeSmall(c, s, n), []);
  }

  // ---------------------------------------------------------------- a wedge stays

  lemma ReceiverIsFull(c: Config, s: State, n: nat)
    requires Inv(c, s) && Fits32(c) && !s.closing
    ensures s.rcv.size >= Total(Beyond(s.rcv.tree, n))
  {
    TotalCovered(Beyond(s.rcv.tree, n), s.rcv.tree);
    SmallStays(Occupied(s.rcv, s.phase));
  }

  lemma StillMissing(c: Config, s: State, n: nat)
    requires Inv(c, s) && n in s.w.offered
    ensures s.rcv.sequence < n && n !in s.rcv.tree && s.taken <= n && n < |s.w.log|
  {
    assert n !in s.wire;
  }

  lemma QueueNextKeepsBeyond(r: Recv, n: nat)
    requires r.sequence < n && n !in r.tree
    ensures Beyond(QueueNext(r).tree, n) == Beyond(r.tree, n) && QueueNext(r).maxSequence == r.maxSequence
  {
  }

  lemma InsertKeepsBeyond(r: Recv, p: Payload, n: nat)
    requires p.sequence in r.tree ==> r.tree[p.sequence] == p
    ensures Total(Beyond(Insert(r, p).tree, n)) >= Total(Beyond(r.tree, n))
  {
    TotalCovered(Beyond(r.tree, n), Beyond(Insert(r, p).tree, n));
  }

  /** A full receiver takes nothing above its highest number, and gives nothing back beyond the gap. */
  lemma ReceiveKeepsBeyond(r: Recv, p: Payload, n: nat, maxSize: uint32)
    requires Ordered(r) && r.sequence < n && n !in r.tree && p.sequence != n && r.size > maxSize
    requires p.sequence in r.tree ==> r.tree[p.sequence] == p
    ensures var t := ReceiveUnordered(r, p, maxSize);
            t.maxSequence == r.maxSequence && Total(Beyond(t.tree, n)) >= Total(Beyond(r.tree, n))
  {
    if !(p.sequence <= r.sequence || Refuses(r, p.sequence, maxSize)) {
      InsertKeepsBeyond(r, p, n);
      QueueNextKeepsBeyond(Insert(r, p), n);
    }
  }

  /** Nothing changes but the writer, the wire and the budget. */
  ghost predicate Sideways(s: State, t: State) {
    t.acks == s.acks && t.arrivals == s.arrivals && t.phase == s.phase && t.rcv == s.rcv && t.closing == s.closing
  }

  lemma SidewaysIsNarrower(c: Config, s: State, t: State, n: nat)
    requires Sideways(s, t)
    ensures Narrower(c, s, t, n)
  {
  }

  lemma ArriveFrames(c: Config, s: State, step: Step)
    requires Enabled(c, s, step) && step.Receive?
    ensures var t := Apply(c, s, step);
            && t.w == s.w && t.snd == s.snd && t.closing == s.closing && t.budget == s.budget && t.acks == s.acks && t.phase == s.phase
            && t.rcv == ReceiveUnordered(s.rcv, s.w.log[step.n], c.rxBufferSize)
            && forall worker :: worker in t.arrivals && t.arrivals[worker].Sized? ==> worker in s.arrivals && s.arrivals[worker] == t.arrivals[worker]
  {
  }

  lemma FewerIsNarrower(c: Config, s: State, t: State, n: nat)
    requires t.closing == s.closing && t.acks == s.acks && (t.phase.Reported? ==> t.phase == s.phase)
    requires t.rcv.maxSequence == s.rcv.maxSequence && Total(Beyond(t.rcv.tree, n)) >= Total(Beyond(s.rcv.tree, n))
    requires forall worker :: worker in t.arrivals && t.arrivals[worker].Sized? ==> worker in s.arrivals && s.arrivals[worker] == t.arrivals[worker]
    ensures Narrower(c, s, t, n)
  {
    forall ack | OnItsWay(t, ack) ensures OnItsWay(s, ack) {
      if worker :| worker in t.arrivals && AboutToSend(t.arrivals[worker], ack) {
        assert AboutToSend(s.arrivals[worker], ack);
      }
    }
  }

  lemma ArriveKeepsWedge(c: Config, s: State, step: Step, n: nat)
    requires Inv(c, s) && Fits32(c) && Wedged(c, s, n) && Enabled(c, s, step) && step.Receive?
    ensures Wedged(c, Apply(c, s, step), n)
  {
    ReceiverIsFull(c, s, n);
    StillMissing(c, s, n);
    ArriveFrames(c, s, step);
    ReceiveKeepsBeyond(s.rcv, s.w.log[step.n], n, c.rxBufferSize);
    FewerIsNarrower(c, s, Apply(c, s, step), n);
    StaysShut(c, s, Apply(c, s, step), n);
  }

  /** A size read now blocks the sender, or small ones were possible anyway. */
  lemma ReadIsStillToCome(c: Config, s: State, n: nat, ack: Ack)
    requires Inv(c, s) && Fits32(c) && !s.closing && ack.recvBufferSize == s.rcv.size
    requires forall i :: 0 <= i < |ack.sequence| ==> Accepted(s.rcv, ack.sequence[i])
    ensures StillToCome(c, s.rcv, MayBeSmall(c, s, n), ack)
  {
    ReceiverIsFull(c, s, n);
  }

  lemma ReadSizeIsNarrower(c: Config, s: State, worker: nat, n: nat)
    requires Inv(c, s) && Fits32(c) && !s.closing && worker in s.arrivals && s.arrivals[worker].Taken?
    ensures Narrower(c, s, ReadArrival(s, worker), n)
  {
    var t := ReadArrival(s, worker);
    ReadIsStillToCome(c, s, n, Ack([s.arrivals[worker].number], s.rcv.size, s.arrivals[worker].rtt));
    forall ack | OnItsWay(t, ack) ensures OnItsWay(s, ack) || StillToCome(c, s.rcv, MayBeSmall(c, s, n), ack) {
      if other :| other in t.arrivals && AboutToSend(t.arrivals[other], ack) {
        assert other == worker || AboutToSend(s.arrivals[other], ack);
      }
    }
  }

  lemma StoreIsNarrower(c: Config, s: State, worker: nat, n: nat)
    requires worker in s.arrivals && s.arrivals[worker].Sized?
    ensures Narrower(c, s, StoreArrival(s, worker), n)
  {
    var t := StoreArrival(s, worker);
    forall ack | OnItsWay(t, ack) ensures OnItsWay(s, ack) {
      if other :| other in t.arrivals && AboutToSend(t.arrivals[other], ack) {
        assert AboutToSend(s.arrivals[other], ack);
      } else if ack in t.acks && ack !in s.acks {
        assert AboutToSend(s.arrivals[worker], ack);
      }
    }
  }

  lemma WorkerKeepsWedge(c: Config, s: State, step: Step, n: nat)
    requires Inv(c, s) && Fits32(c) && Wedged(c, s, n) && Enabled(c, s, step) && (step.ReadSize? || step.StoreAck?)
    ensures Wedged(c, Apply(c, s, step), n)
  {
    if step.ReadSize? {
      ReadSizeIsNarrower(c, s, step.worker, n);
    } else {
      StoreIsNarrower(c, s, step.worker, n);
    }
    StaysShut(c, s, Apply(c, s, step), n);
  }

  lemma ReadReportIsNarrower(c: Config, s: State, n: nat)
    requires Inv(c, s) && Fits32(c) && !s.closing && s.phase.Reporting?
    ensures Narrower(c, s, s.(phase := Reported(s.rcv.size)), n)
  {
    ReadIsStillToCome(c, s, n, Ack([], s.rcv.size, 0));
  }

  lemma StoreReportIsNarrower(c: Config, s: State, n: nat)
    requires s.phase.Reported?
    ensures Narrower(c, s, StoreReport(s), n)
  {
  }

  lemma ReportKeepsWedge(c: Config, s: State, step: Step, n: nat)
    requires Inv(c, s) && Fits32(c) && Wedged(c, s, n) && Enabled(c, s, step) && (step.ReadReport? || step.StoreEmptyAck?)
    ensures Wedged(c, Apply(c, s, step), n)
  {
    if step.ReadReport? {
      ReadReportIsNarrower(c, s, n);
    } else {
      StoreReportIsNarrower(c, s, n);
    }
    StaysShut(c, s, Apply(c, s, step), n);
  }

  lemma AckedIsLow(acks: set<Ack>, r: Recv, ack: Ack)
    requires AckSound(acks, r) && Ordered(r) && ack in acks
    ensures forall k :: k in ack.sequence ==> k <= r.maxSequence
  {
    forall k | k in ack.sequence ensures k <= r.maxSequence {
      assert Accepted(r, k);
    }
  }

  lemma SameStuck(before: map<int, Payload>, after: map<int, Payload>, gone: set<int>, highest: int)
    requires after == before - gone && forall k :: k in gone ==> k <= highest
    ensures Stuck(after, highest) == Stuck(before, highest)
  {
  }

  lemma AckKeepsStuck(o: Options, snd: Send, ack: Ack, now: nat, highest: int)
    requires ValidOptions(o) && Accounted(o, snd) && forall k :: k in ack.sequence ==> k <= highest
    ensures Stuck(ReceiveAck(o, snd, ack, now).buffer, highest) == Stuck(snd.buffer, highest)
  {
    AckKeeps(o, snd, ack, now);
    SameStuck(snd.buffer, ReceiveAck(o, snd, ack, now).buffer, (set n | n in ack.sequence), highest);
  }

  lemma AckKeepsWedge(c: Config, s: State, ack: Ack, now: nat, n: nat)
    requires Inv(c, s) && Wedged(c, s, n) && ack in s.acks
    ensures Wedged(c, Apply(c, s, AckArrives(ack, now)), n)
  {
    var t := Apply(c, s, AckArrives(ack, now));
    AckedIsLow(s.acks, s.rcv, ack);
    AckKeepsStuck(c.options, s.snd, ack, now, s.rcv.maxSequence);
    SidewaysIsNarrower(c, s, t, n);
    HeardFirst(c, s, t, n, Hears(ack, now));
  }

  lemma ResendingKeepsWedge(c: Config, s: State, count: nat, n: nat)
    requires Inv(c, s) && Wedged(c, s, n)
    ensures Wedged(c, Apply(c, s, Retransmit(count)), n)
  {
    var t := Apply(c, s, Retransmit(count));
    RetransmitKeeps(c.options, s.snd, count);
    SidewaysIsNarrower(c, s, t, n);
    HeardFirst(c, s, t, n, Resends(count));
  }

  lemma SenderKeepsWedge(c: Config, s: State, step: Step, n: nat)
    requires Wedged(c, s, n) && Enabled(c, s, step) && OfSender(step)
    ensures Wedged(c, Apply(c, s, step), n)
  {
    ShutIsBlocked(c, s, n);
    SidewaysIsNarrower(c, s, Apply(c, s, step), n);
    StaysShut(c, s, Apply(c, s, step), n);
  }

  lemma WriterKeepsJam(c: Config, s: State, step: Step, n: nat)
    requires Jammed(c, s, n) && Enabled(c, s, step) && OfWriter(step) && !Unwedges(step, n)
    ensures Jammed(c, Apply(c, s, step), n) && Sideways(s, Apply(c, s, step)) && Apply(c, s, step).snd == s.snd
  {
  }

  lemma WriterKeepsWedge(c: Config, s: State, step: Step, n: nat)
    requires Wedged(c, s, n) && Enabled(c, s, step) && OfWriter(step) && !Unwedges(step, n)
    ensures Wedged(c, Apply(c, s, step), n)
  {
    WriterKeepsJam(c, s, step, n);
    SidewaysIsNarrower(c, s, Apply(c, s, step), n);
    StaysShut(c, s, Apply(c, s, step), n);
  }

  lemma PrimeKeepsWedge(c: Config, s: State, n: nat)
    requires Inv(c, s) && Wedged(c, s, n) && Enabled(c, s, Prime)
    ensures Wedged(c, Apply(c, s, Prime), n)
  {
    StillMissing(c, s, n);
    QueueNextKeepsBeyond(s.rcv, n);
    FewerIsNarrower(c, s, Apply(c, s, Prime), n);
    StaysShut(c, s, Apply(c, s, Prime), n);
  }

  predicate OfFetch(step: Step) {
    step.FetchQueued? || step.FetchPrimed? || step.FetchNil? || step.CloseNotify?
  }

  predicate OfHand(step: Step) {
    step.Handle? || step.Release? || step.CheckSize?
  }

  /** The txer's own steps leave the sender, the acks and the tree alone. */
  ghost predicate TxerOnly(s: State, t: State) {
    && t.w == s.w && t.snd == s.snd && t.budget == s.budget && t.closing == s.closing
    && t.acks == s.acks && t.arrivals == s.arrivals && (t.phase.Reported? ==> t.phase == s.phase)
    && t.rcv.tree == s.rcv.tree && t.rcv.maxSequence == s.rcv.maxSequence
  }

  lemma FetchFrames(c: Config, s: State, step: Step)
    requires Enabled(c, s, step) && OfFetch(step)
    ensures TxerOnly(s, Apply(c, s, step))
  {
  }

  lemma HandFrames(c: Config, s: State, step: Step)
    requires Enabled(c, s, step) && OfHand(step)
    ensures TxerOnly(s, Apply(c, s, step))
  {
    if step.Handle? {
      HandleFrames(s, step.accepted);
    }
  }

  lemma TxerKeepsWedge(c: Config, s: State, step: Step, n: nat)
    requires Wedged(c, s, n) && Enabled(c, s, step) && (OfFetch(step) || OfHand(step))
    ensures Wedged(c, Apply(c, s, step), n)
  {
    if OfFetch(step) {
      FetchFrames(c, s, step);
    } else {
      HandFrames(c, s, step);
    }
    FewerIsNarrower(c, s, Apply(c, s, step), n);
    StaysShut(c, s, Apply(c, s, step), n);
  }

  lemma ReceiverKeepsWedge(c: Config, s: State, step: Step, n: nat)
    requires Inv(c, s) && Fits32(c) && Wedged(c, s, n) && Enabled(c, s, step)
    requires !OfWriter(step) && !OfSender(step) && !OfAcks(step)
    ensures Wedged(c, Apply(c, s, step), n)
  {
    if OfFetch(step) || OfHand(step) {
      TxerKeepsWedge(c, s, step, n);
    } else if step.Receive? {
      ArriveKeepsWedge(c, s, step, n);
    } else if step.Prime? {
      PrimeKeepsWedge(c, s, n);
    } else if step.ReadSize? || step.StoreAck? {
      WorkerKeepsWedge(c, s, step, n);
    } else {
      ReportKeepsWedge(c, s, step, n);
    }
  }

  lemma WedgeStep(c: Config, s: State, step: Step, n: nat)
    requires Inv(c, s) && Fits32(c) && Wedged(c, s, n) && Enabled(c, s, step) && !Unwedges(step, n)
    ensures Wedged(c, Apply(c, s, step), n)
  {
    if OfWriter(step) {
      WriterKeepsWedge(c, s, step, n);
    } else if OfSender(step) {
      SenderKeepsWedge(c, s, step, n);
    } else if step.AckArrives? {
      AckKeepsWedge(c, s, step.ack, step.now, n);
    } else if step.Retransmit? {
      ResendingKeepsWedge(c, s, step.count, n);
    } else {
      ReceiverKeepsWedge(c, s, step, n);
    }
  }

  lemma LogGrows(c: Config, s: State, step: Step)
    requires Enabled(c, s, step)
    ensures s.w.log <= Apply(c, s, step).w.log
  {
    if !OfWriter(step) {
      LogUntouched(c, s, step);
    }
  }

  ghost predicate WedgedSince(c: Config, s: State, t: State, n: nat) {
    Wedged(c, t, n) && Inv(c, t) && s.w.log <= t.w.log
  }

  lemma WedgeGoesOn(c: Config, s: State, t: State, step: Step, n: nat)
    requires Fits32(c) && WedgedSince(c, s, t, n) && Enabled(c, t, step) && !Unwedges(step, n)
    ensures WedgedSince(c, s, Apply(c, t, step), n)
  {
    WedgeStep(c, t, step, n);
    StepKeeps(c, t, step);
    LogGrows(c, t, step);
  }

  lemma {:induction false} WedgeIsKept(c: Config, s: State, u: State, steps: seq<Step>, t: State, n: nat)
    requires Fits32(c) && WedgedSince(c, s, u, n) && Path(c, u, steps, t)
    requires Spares(steps, n)
    ensures WedgedSince(c, s, t, n)
    decreases |steps|
  {
    if steps != [] {
      SparesOn(steps, n);
      WedgeGoesOn(c, s, u, steps[0], n);
      WedgeIsKept(c, s, Apply(c, u, steps[0]), steps[1..], t, n);
    }
  }

  lemma OutStaysBelow(c: Config, t: State, n: nat)
    requires Inv(c, t) && n in t.w.offered
    ensures n < |t.w.log| && t.consumer.out <= Replay(t.w.log[..n]).out
  {
    StillMissing(c, t, n);
    var k := ReplayedPrefix(c, t);
    ReplayGrows(t.w.log, k, n);
  }

  /** Whatever happens, short of giving the number up or closing, it stays wedged and nothing numbered from it on is ever delivered. */
  lemma {:induction false} WedgeStays(c: Config, s: State, steps: seq<Step>, t: State, n: nat)
    requires ValidConfig(c) && Reachable(c, s) && Fits32(c) && Wedged(c, s, n) && Path(c, s, steps, t)
    requires Spares(steps, n)
    ensures Wedged(c, t, n) && n < |s.w.log|
    ensures t.consumer.out <= Replay(s.w.log[..n]).out
  {
    ReachableKeeps(c, s);
    WedgeIsKept(c, s, s, steps, t, n);
    StillMissing(c, s, n);
    OutStaysBelow(c, t, n);
    SamePrefix(s.w.log, t.w.log, n);
  }

  lemma SamePrefix(a: seq<Payload>, b: seq<Payload>, n: nat)
    requires a <= b && n < |a|
    ensures b[..n] == a[..n]
  {
  }

  // ---------------------------------------------------------------- exactly then

  lemma {:induction false} ClosedStays(c: Config, s: State, steps: seq<Step>, t: State, n: nat)
    requires Path(c, s, steps, t) && (s.closing || n in s.w.burned)
    ensures t.closing || n in t.w.burned
    decreases |steps|
  {
    if steps != [] {
      StepStaysClosed(c, s, steps[0], n);
      ClosedStays(c, Apply(c, s, steps[0]), steps[1..], t, n);
    }
  }

  lemma StaysBurned(c: Config, s: State, step: Step, n: nat)
    requires Enabled(c, s, step) && n in s.w.burned
    ensures n in Apply(c, s, step).w.burned
  {
    if OfWriter(step) {
      WriterBurns(c, s, step, n);
    } else {
      LogAndBurnedUntouched(c, s, step);
    }
  }

  lemma WriterBurns(c: Config, s: State, step: Step, n: nat)
    requires Enabled(c, s, step) && OfWriter(step)
    ensures n in s.w.burned || step == Burn(n) ==> n in Apply(c, s, step).w.burned
  {
  }

  lemma StepStaysClosed(c: Config, s: State, step: Step, n: nat)
    requires Enabled(c, s, step) && (s.closing || n in s.w.burned || Unwedges(step, n))
    ensures Apply(c, s, step).closing || n in Apply(c, s, step).w.burned
  {
    if s.closing || step.CloseWhenEmpty? {
      ClosingIsKept(c, s, step);
    } else if n in s.w.burned {
      StaysBurned(c, s, step, n);
    } else {
      WriterBurns(c, s, step, n);
    }
  }

  lemma {:induction false} NeverUnwedged(c: Config, s: State, steps: seq<Step>, t: State, n: nat)
    requires Path(c, s, steps, t) && !t.closing && n !in t.w.burned
    ensures Spares(steps, n)
    decreases |steps|
  {
    if steps != [] {
      var u := Apply(c, s, steps[0]);
      NeverUnwedged(c, u, steps[1..], t, n);
      if Unwedges(steps[0], n) {
        StepStaysClosed(c, s, steps[0], n);
        ClosedStays(c, u, steps[1..], t, n);
      }
      SparesOn(steps, n);
    }
  }

  /** Some schedule finishes without giving up a number or closing the buffer. */
  ghost predicate CanFinish(c: Config, s: State) {
    exists steps, t :: Path(c, s, steps, t) && Finished(s, t)
  }

  lemma {:induction false} WedgedNeverFinishes(c: Config, s: State, n: nat, steps: seq<Step>, t: State)
    requires ValidConfig(c) && Reachable(c, s) && Fits32(c) && Wedged(c, s, n) && Path(c, s, steps, t)
    ensures !Finished(s, t)
  {
    if Finished(s, t) {
      NeverUnwedged(c, s, steps, t, n);
      assert Stuck(t.snd.buffer, t.rcv.maxSequence) == map[];
      WedgeStays(c, s, steps, t, n);
    }
  }

  lemma UnjammedIsPromising(c: Config, s: State, n: nat)
    requires !s.closing && s.budget == 0 && n in s.w.offered && Lowest(s.w, n) && !Jammed(c, s, n)
    ensures Promising(c, s)
  {
    assert forall k: nat :: Lowest(s.w, k) && k < |s.w.log| ==> k == n;
  }

  /**
   Behind a check that let nothing in: the circuit can finish if and only if it is not wedged at the
   lowest waiting number. The condition on the sizes always holds if the receiver's limit is not
   below the largest window.
   */
  lemma FinishExactly(c: Config, s: State, n: nat)
    requires Alive(c, s) && Fits32(c) && !s.closing && s.budget == 0 && n in s.w.offered && Lowest(s.w, n)
    requires Total(Beyond(s.rcv.tree, n)) <= c.rxBufferSize || Total(Beyond(s.rcv.tree, n)) > c.options.maxSize
    ensures CanFinish(c, s) <==> !Wedged(c, s, n)
  {
    if Wedged(c, s, n) {
      forall steps, t | Path(c, s, steps, t) ensures !Finished(s, t) {
        WedgedNeverFinishes(c, s, n, steps, t);
      }
    } else if Jammed(c, s, n) {
      var steps, t := CanFinishIfItOpens(c, s);
    } else {
      UnjammedIsPromising(c, s, n);
      var steps, t := CanAlwaysFinish(c, s);
    }
  }

  // ---------------------------------------------------------------- two ways to be wedged

  predicate Low(signal: Signal, highest: int) {
    signal.Hears? ==> forall k :: k in signal.ack.sequence ==> k <= highest
  }

  lemma PossibleIsLow(c: Config, s: State, small: bool, signal: Signal)
    requires Inv(c, s) && Possible(c, s, small, signal)
    ensures Low(signal, s.rcv.maxSequence)
  {
    if signal.Hears? {
      if signal.ack in s.acks {
        AckedIsLow(s.acks, s.rcv, signal.ack);
      } else if worker :| worker in s.arrivals && AboutToSend(s.arrivals[worker], signal.ack) {
        assert Accepted(s.rcv, s.arrivals[worker].number);
      }
    }
  }

  /** The sender's counters are right, and it holds what the receiver refuses and nothing new. */
  ghost predicate HoldsOn(o: Options, s: Send, t: Send, highest: int) {
    Accounted(o, t) && Stuck(t.buffer, highest) == Stuck(s.buffer, highest) && Total(t.buffer) <= Total(s.buffer)
  }

  lemma HearHoldsOn(o: Options, s: Send, signal: Signal, highest: int)
    requires ValidOptions(o) && Accounted(o, s) && Low(signal, highest)
    ensures HoldsOn(o, s, Hear(o, s, signal), highest)
  {
    match signal
    case Hears(ack, now) =>
      AckKeeps(o, s, ack, now);
      AckKeepsStuck(o, s, ack, now, highest);
    case Resends(count) => RetransmitKeeps(o, s, count);
  }

  lemma {:induction false} HearAllHoldsOn(o: Options, s: Send, signals: seq<Signal>, highest: int)
    requires ValidOptions(o) && Accounted(o, s) && forall i :: 0 <= i < |signals| ==> Low(signals[i], highest)
    ensures HoldsOn(o, s, HearAll(o, s, signals), highest)
    decreases |signals|
  {
    if signals != [] {
      HearHoldsOn(o, s, signals[0], highest);
      HearAllHoldsOn(o, Hear(o, s, signals[0]), signals[1..], highest);
    }
  }

  predicate Large(o: Options, signal: Signal) {
    signal.Hears? ==> signal.ack.recvBufferSize > o.maxSize
  }

  lemma HearStaysLarge(o: Options, s: Send, signal: Signal)
    requires s.recvSize > o.maxSize && Large(o, signal)
    ensures Hear(o, s, signal).recvSize > o.maxSize
  {
    match signal
    case Hears(ack, now) => AckWindow(o, s, ack, now);
    case Resends(count) => RetransmitAlike(o, s, s, count);
  }

  lemma {:induction false} HearAllStaysLarge(o: Options, s: Send, signals: seq<Signal>)
    requires s.recvSize > o.maxSize && forall i :: 0 <= i < |signals| ==> Large(o, signals[i])
    ensures HearAll(o, s, signals).recvSize > o.maxSize
    decreases |signals|
  {
    if signals != [] {
      HearStaysLarge(o, s, signals[0]);
      HearAllStaysLarge(o, Hear(o, s, signals[0]), signals[1..]);
    }
  }

  /** Whatever the sender hears, it counts at least what the receiver refuses. */
  lemma {:induction false} StillCounted(c: Config, s: State, small: bool, signals: seq<Signal>)
    requires Inv(c, s) && Fits32(c) && !s.closing && AllPossible(c, s, small, signals)
    ensures var t := HearAll(c.options, s.snd, signals);
            t.sendSize >= Total(Stuck(s.snd.buffer, s.rcv.maxSequence)) && t.windowSize <= c.options.maxSize
  {
    var t, highest := HearAll(c.options, s.snd, signals), s.rcv.maxSequence;
    forall i | 0 <= i < |signals| ensures Low(signals[i], highest) {
      PossibleIsLow(c, s, small, signals[i]);
    }
    HearAllHoldsOn(c.options, s.snd, signals, highest);
    TotalCovered(Stuck(t.buffer, highest), t.buffer);
    BoundedTotal(c, s.snd, s.budget);
    SmallStays(Total(t.buffer));
  }

  /** Refused data above the largest window shuts the buffer. */
  lemma WindowShuts(c: Config, s: State, small: bool)
    requires Inv(c, s) && Fits32(c) && !s.closing && Total(Stuck(s.snd.buffer, s.rcv.maxSequence)) > c.options.maxSize
    ensures !CanOpen(c, s, small)
  {
    forall signals ensures !Opening(c, s, small, signals) {
      if AllPossible(c, s, small, signals) {
        StillCounted(c, s, small, signals);
      }
    }
  }

  /** Every size the sender knows or can still hear is above the largest window. */
  ghost predicate AllLarge(c: Config, s: State) {
    s.snd.recvSize > c.options.maxSize && forall ack :: OnItsWay(s, ack) ==> ack.recvBufferSize > c.options.maxSize
  }

  /** Then any refused data shuts it. */
  lemma RemoteSizeShuts(c: Config, s: State)
    requires Inv(c, s) && Fits32(c) && !s.closing && Total(Stuck(s.snd.buffer, s.rcv.maxSequence)) > 0 && AllLarge(c, s)
    ensures !CanOpen(c, s, false)
  {
    forall signals ensures !Opening(c, s, false, signals) {
      if AllPossible(c, s, false, signals) {
        StillCounted(c, s, false, signals);
        forall i | 0 <= i < |signals| ensures Large(c.options, signals[i]) {
          assert Possible(c, s, false, signals[i]);
        }
        HearAllStaysLarge(c.options, s.snd, signals);
      }
    }
  }

  // ---------------------------------------------------------------- a wedge can be reached

  /** A goroutine took number 0 for a control payload and has not offered it to the send loop yet; number 1 is sent ahead of it. */
  lemma FirstGetsAhead(c: Config, p: Payload, m: Write) returns (s: State)
    requires ValidConfig(c) && c.endpoint.mtu == 0 && IsControl(p) && p.sequence == 0 && ValidWrite(m) && |m.buffer| <= c.maxPayload
    ensures Reachable(c, s)
    ensures s.w == Writer([p, Whole(c, m, 1)], [DataMessage(m.buffer, m.headers)], None, None, {0}, {1}, {})
    ensures s.snd == Buffered(NewSend(c.options), Whole(c, m, 1)) && s.wire == {1}
    ensures s.rcv == NewRecv(c.txQueueSize) && s.acks == {} && Unstarted(s)
  {
    InitReaches(c);
    var one := OneStep(c, Init(c), Control(p));
    var a := Apply(c, Init(c), Control(p));
    ReachesOn(c, Init(c), one, a);
    var two := Offers(c, a, m);
    var b := Offering(c, a, m);
    ReachesOn(c, a, two, b);
    var three := Sends(c, b, 1);
    s := Sent(b, 1);
    ReachesOn(c, b, three, s);
  }

  /** No worker is under way, the txer has not done anything, and the buffer is not closing. */
  predicate Unstarted(s: State) {
    s.arrivals == map[] && s.phase == Fetch && s.consumer == FRESH && !s.closing && s.taken == 0
  }

  lemma TakenAhead(c: Config, p: Payload)
    requires p.sequence == 1 && |p.data| < TWO32
    ensures !Refuses(NewRecv(c.txQueueSize), 1, c.rxBufferSize)
    ensures ReceiveUnordered(NewRecv(c.txQueueSize), p, c.rxBufferSize) == Recv(map[1 := p], -1, 1, |p.data|, [], c.txQueueSize)
  {
    SmallStays(|p.data|);
  }

  /** The receiver takes number 1 into its tree and acks it. */
  lemma FirstIsTaken(c: Config, s: State, p: Payload) returns (t: State)
    requires Reachable(c, s) && Unstarted(s) && s.rcv == NewRecv(c.txQueueSize) && s.wire == {1}
    requires |s.w.log| == 2 && s.w.log[1] == p && p.sequence == 1 && |p.data| < TWO32
    ensures Reachable(c, t) && Unstarted(t) && t.w == s.w && t.snd == s.snd
    ensures t.rcv == Recv(map[1 := p], -1, 1, |p.data|, [], c.txQueueSize) && t.acks == s.acks + {Ack([1], |p.data|, 0)}
  {
    TakenAhead(c, p);
    var four := Sees(c, s, 1);
    var e := Seen(c, s, 1);
    ReachesOn(c, s, four, e);
    var five := Stores(c, e);
    t := StoreArrival(e, 0);
    ReachesOn(c, e, five, t);
  }

  lemma FirstIsAcked(c: Config, s: State, p: Payload) returns (t: State)
    requires |p.data| < TWO32 && ValidConfig(c) && Reachable(c, s) && Unstarted(s) && Ack([1], |p.data|, 0) in s.acks
    requires s.snd == Buffered(NewSend(c.options), p) && p.sequence == 1
    ensures Reachable(c, t) && Unstarted(t) && t.w == s.w && t.rcv == s.rcv && t.acks == s.acks
    ensures t.snd.buffer == map[] && t.snd.sendSize == 0 && t.snd.recvSize == |p.data|
  {
    NewSendAccounted(c.options);
    BufferedKeeps(c.options, NewSend(c.options), p);
    var numbers: seq<int> := [1];
    var ack := Ack(numbers, |p.data|, 0);
    AckKeeps(c.options, s.snd, ack, 0);
    AckWindow(c.options, s.snd, ack, 0);
    assert (set k | k in numbers) == {1};
    var six := OneStep(c, s, AckArrives(ack, 0));
    t := Apply(c, s, AckArrives(ack, 0));
    ReachesOn(c, s, six, t);
    assert t.snd.buffer == map[];
  }

  /** Number 2 follows. */
  lemma SecondIsSent(c: Config, s: State, m: Write) returns (t: State)
    requires ValidConfig(c) && c.endpoint.mtu == 0 && ValidWrite(m) && |m.buffer| <= c.maxPayload
    requires Reachable(c, s) && Unstarted(s) && s.snd.buffer == map[] && s.snd.sendSize == 0
    requires |s.w.log| == 2 && s.w.offered == {0} && s.w.entered == {1} && s.w.burned == {} && s.w.writing.None? && s.w.current.None?
    ensures Reachable(c, t) && Unstarted(t) && t.rcv == s.rcv && t.acks == s.acks
    ensures t.snd.buffer == map[2 := Whole(c, m, 2)] && t.snd.recvSize == s.snd.recvSize
    ensures t.w == Writer(s.w.log + [Whole(c, m, 2)], s.w.written + [DataMessage(m.buffer, m.headers)], None, None, {0}, {1, 2}, {})
  {
    var seven := Offers(c, s, m);
    var b := Offering(c, s, m);
    ReachesOn(c, s, seven, b);
    var eight := Sends(c, b, 2);
    t := Sent(b, 2);
    ReachesOn(c, b, eight, t);
  }

  /** The check that finds the buffer shut. */
  lemma CheckWedges(c: Config, s: State, n: nat) returns (t: State)
    requires Reachable(c, s) && !s.closing && n in s.w.offered
    requires Total(Beyond(s.rcv.tree, n)) > c.rxBufferSize && Total(Stuck(s.snd.buffer, s.rcv.maxSequence)) > 0
    requires !CanOpen(c, s, MayBeSmall(c, s, n))
    ensures Reachable(c, t) && Wedged(c, t, n) && t == s.(budget := 0)
  {
    ShutIsBlocked(c, s, n);
    var last := OneStep(c, s, Check);
    t := Apply(c, s, Check);
    ReachesOn(c, s, last, t);
    SidewaysIsNarrower(c, s, t, n);
    StaysShut(c, s, t, n);
  }

  lemma OneEntry(k: int, p: Payload)
    ensures Total(map[k := p]) == |p.data|
  {
    TotalInsert(map[], k, p);
    assert map[][k := p] == map[k := p];
  }

  /** Two writes made while number 0 waits: the first fills the receiver and is acked, the second is refused. */
  lemma TwoGetAhead(c: Config, p: Payload, m1: Write, m2: Write) returns (s: State)
    requires ValidConfig(c) && Fits32(c) && c.endpoint.mtu == 0 && IsControl(p) && p.sequence == 0
    requires ValidWrite(m1) && |m1.buffer| <= c.maxPayload && ValidWrite(m2) && |m2.buffer| <= c.maxPayload
    ensures Reachable(c, s) && Unstarted(s)
    ensures s.w == Writer([p, Whole(c, m1, 1), Whole(c, m2, 2)], [DataMessage(m1.buffer, m1.headers), DataMessage(m2.buffer, m2.headers)],
                          None, None, {0}, {1, 2}, {})
    ensures s.rcv.tree == map[1 := Whole(c, m1, 1)] && s.rcv.maxSequence == 1 && s.snd.buffer == map[2 := Whole(c, m2, 2)]
    ensures s.snd.recvSize == |m1.buffer| && s.acks == {Ack([1], |m1.buffer|, 0)}
  {
    var a := FirstGetsAhead(c, p, m1);
    var b := FirstIsTaken(c, a, Whole(c, m1, 1));
    var d := FirstIsAcked(c, b, Whole(c, m1, 1));
    s := SecondIsSent(c, d, m2);
  }

  lemma SizesAhead(s: State, first: Payload, second: Payload)
    requires s.rcv.tree == map[1 := first] && s.rcv.maxSequence == 1 && s.snd.buffer == map[2 := second]
    ensures Total(Beyond(s.rcv.tree, 0)) == |first.data|
    ensures Total(Stuck(s.snd.buffer, s.rcv.maxSequence)) == |second.data|
  {
    OneEntry(1, first);
    OneEntry(2, second);
    assert Beyond(s.rcv.tree, 0) == map[1 := first] && Stuck(s.snd.buffer, 1) == map[2 := second];
  }

  /** Nothing is burned, no end was sent, no write is in progress, and the peer has got nothing. */
  ghost predicate Undelivered(s: State, m1: Write, m2: Write) {
    && Unended(s.w) && !s.phase.Halted? && s.w.writing.None? && s.w.current.None? && s.consumer.out == []
    && s.w.written == [DataMessage(m1.buffer, m1.headers), DataMessage(m2.buffer, m2.headers)]
  }

  lemma NothingIsDelivered(c: Config, s: State, p: Payload, m1: Write, m2: Write)
    requires Unstarted(s) && !Stops(p)
    requires s.w == Writer([p, Whole(c, m1, 1), Whole(c, m2, 2)], [DataMessage(m1.buffer, m1.headers), DataMessage(m2.buffer, m2.headers)],
                           None, None, {0}, {1, 2}, {})
    ensures Undelivered(s, m1, m2)
  {
    assert !Stops(s.w.log[0]) && !Stops(s.w.log[1]) && !Stops(s.w.log[2]);
  }

  /**
   For every configuration without an MTU, a wedge is reached by two writes, one above the receiver's
   limit and one above the largest window, while number 0 waits.
   */
  lemma WedgeRun(c: Config, p: Payload, m1: Write, m2: Write) returns (s: State)
    requires ValidConfig(c) && Fits32(c) && c.endpoint.mtu == 0 && IsControl(p) && !Stops(p) && p.sequence == 0
    requires ValidWrite(m1) && c.rxBufferSize < |m1.buffer| <= c.maxPayload
    requires ValidWrite(m2) && c.options.maxSize < |m2.buffer| <= c.maxPayload
    ensures Reachable(c, s) && Wedged(c, s, 0) && Undelivered(s, m1, m2)
  {
    var a := TwoGetAhead(c, p, m1, m2);
    SizesAhead(a, Whole(c, m1, 1), Whole(c, m2, 2));
    ReachableKeeps(c, a);
    WindowShuts(c, a, MayBeSmall(c, a, 0));
    s := CheckWedges(c, a, 0);
    NothingIsDelivered(c, s, p, m1, m2);
  }

  lemma OnlyLargeAcks(c: Config, s: State, size: uint32)
    requires Unstarted(s) && s.snd.recvSize == size > c.options.maxSize && s.acks == {Ack([1], size, 0)}
    ensures AllLarge(c, s)
  {
  }

  /**
   And by one write above both limits and a second one of a single byte: every size the receiver
   ever advertised blocks the sender, and the byte keeps its buffer from being empty.
   */
  lemma RemoteWedgeRun(c: Config, p: Payload, m1: Write, m2: Write) returns (s: State)
    requires ValidConfig(c) && Fits32(c) && c.endpoint.mtu == 0 && IsControl(p) && !Stops(p) && p.sequence == 0
    requires ValidWrite(m1) && c.rxBufferSize < |m1.buffer| <= c.maxPayload && c.options.maxSize < |m1.buffer|
    requires ValidWrite(m2) && 0 < |m2.buffer| <= c.maxPayload
    ensures Reachable(c, s) && Wedged(c, s, 0) && Undelivered(s, m1, m2)
  {
    var a := TwoGetAhead(c, p, m1, m2);
    SizesAhead(a, Whole(c, m1, 1), Whole(c, m2, 2));
    ReachableKeeps(c, a);
    OnlyLargeAcks(c, a, |m1.buffer|);
    RemoteSizeShuts(c, a);
    s := CheckWedges(c, a, 0);
    NothingIsDelivered(c, s, p, m1, m2);
  }
}
