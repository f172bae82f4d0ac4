/**
 How fresh the last advertised receive size is. PayloadReceived and SendEmptyAck read the size
 and store it in two steps, so a store may come late. It is shown when that does harm.
 */
module Advertising {
  import opened Bytes
  import opened Circuit
  import opened CircuitPaths
  import opened CircuitProofs
  import opened CircuitRuns
  import opened CircuitTheorems
  import opened Messages
  import opened ReceiveBuffer
  import opened Segmentation
  import opened SendBuffer

  predicate FreshlyAdvertised(size: uint32, advertised: uint32) {
    advertised <= 10000 || advertised / 2 <= size
  }

  /** The txer has adjusted the size and is not done with checking what was advertised. */
  predicate Adjusting(phase: Phase) {
    phase.Checking? || phase.Reporting? || phase.Reported?
  }

  predicate Fresh(s: State) {
    Adjusting(s.phase) || FreshlyAdvertised(s.rcv.size, s.advertised)
  }

  /** Nothing the txer has read is more than what is there. */
  predicate Behind(s: State) {
    (s.phase.Checking? ==> s.phase.size <= s.rcv.size) && (s.phase.Reported? ==> s.phase.read <= s.rcv.size)
  }

  /** A store outside the txer's own adjustment whose value is still good when it is made. */
  predicate StoresFresh(s: State, step: Step) {
    step.StoreAck? && step.worker in s.arrivals && s.arrivals[step.worker].Sized?
    ==> Adjusting(s.phase) || FreshlyAdvertised(s.rcv.size, s.arrivals[step.worker].read)
  }

  lemma ExactSize(c: Config, s: State)
    requires Inv(c, s) && Fits32(c) && !s.closing
    ensures s.rcv.size == Occupied(s.rcv, s.phase)
  {
    SmallStays(Occupied(s.rcv, s.phase));
  }

  lemma ArrivalGrows(c: Config, s: State, step: Step)
    requires Inv(c, s) && Fits32(c) && !s.closing && Enabled(c, s, step) && step.Receive?
    ensures var t := Apply(c, s, step);
            t.rcv.size >= s.rcv.size && t.phase == s.phase && t.advertised == s.advertised
  {
    StepKeeps(c, s, step);
    ExactSize(c, s);
    ExactSize(c, Apply(c, s, step));
    ArriveReceives(c, s.w.log, s.wire, s.rcv, s.taken, s.phase, step.n);
  }

  /** Steps that leave the size, what was advertised and the adjustment alone. */
  lemma OthersKeepSize(c: Config, s: State, step: Step)
    requires Enabled(c, s, step) && !step.Receive? && !step.StoreAck? && !step.Release? && !Adjusting(s.phase)
    ensures var t := Apply(c, s, step);
            t.rcv.size == s.rcv.size && t.advertised == s.advertised && !Adjusting(t.phase)
  {
    if OfWriter(step) || OfSender(step) || OfAcks(step) {
      SendingSideFrames(c, s, step);
    }
  }

  predicate OfAdjustment(step: Step) {
    step.CheckSize? || step.ReadReport? || step.StoreEmptyAck?
  }

  lemma AdjustmentSteps(c: Config, s: State, step: Step)
    requires Enabled(c, s, step) && OfAdjustment(step) && Behind(s)
    ensures Fresh(Apply(c, s, step)) && Behind(Apply(c, s, step))
  {
  }

  /** While the txer adjusts, only its own steps and the workers' touch the size or what was advertised. */
  lemma OthersWait(c: Config, s: State, step: Step)
    requires Enabled(c, s, step) && !step.Receive? && !step.StoreAck? && !OfAdjustment(step) && Adjusting(s.phase)
    ensures Apply(c, s, step).phase == s.phase && Apply(c, s, step).rcv.size == s.rcv.size
  {
    if OfWriter(step) || OfSender(step) || OfAcks(step) {
      SendingSideFrames(c, s, step);
    }
  }

  lemma ReleaseAdjusts(c: Config, s: State)
    requires Enabled(c, s, Release)
    ensures Fresh(Apply(c, s, Release)) && Behind(Apply(c, s, Release))
  {
  }

  lemma FreshStep(c: Config, s: State, step: Step)
    requires Inv(c, s) && Fits32(c) && !s.closing && Enabled(c, s, step)
    requires Fresh(s) && Behind(s) && StoresFresh(s, step)
    ensures Fresh(Apply(c, s, step)) && Behind(Apply(c, s, step))
  {
    if step.Receive? {
      ArrivalGrows(c, s, step);
    } else if step.Release? {
      ReleaseAdjusts(c, s);
    } else if !step.StoreAck? {
      if OfAdjustment(step) {
        AdjustmentSteps(c, s, step);
      } else if Adjusting(s.phase) {
        OthersWait(c, s, step);
      } else {
        OthersKeepSize(c, s, step);
      }
    }
  }

  lemma {:induction false} ClosingStays(c: Config, states: seq<State>, steps: seq<Step>, i: nat, j: nat)
    requires IsRun(c, states, steps) && i <= j < |states| && states[i].closing
    ensures states[j].closing
    decreases j - i
  {
    if i < j {
      ClosingIsKept(c, states[i], steps[i]);
      ClosingStays(c, states, steps, i + 1, j);
    }
  }

  lemma {:induction false} RunIsFresh(c: Config, states: seq<State>, steps: seq<Step>, i: nat)
    requires ValidConfig(c) && Fits32(c) && IsRun(c, states, steps) && i < |states| && !states[i].closing
    requires forall k :: 0 <= k < i ==> StoresFresh(states[k], steps[k])
    ensures Fresh(states[i]) && Behind(states[i])
  {
    if i > 0 {
      if states[i - 1].closing {
        ClosingStays(c, states, steps, i - 1, i);
      }
      RunIsFresh(c, states, steps, i - 1);
      RunKeeps(c, states, steps, i - 1);
      FreshStep(c, states[i - 1], steps[i - 1]);
    }
  }

  lemma StoreDecides(c: Config, s: State, step: Step)
    requires Enabled(c, s, step) && Fresh(Apply(c, s, step))
    ensures StoresFresh(s, step)
  {
  }

  /**
   Until the send buffer is told to close, what was advertised is fresh in every state of a run if
   and only if every store of PayloadReceived was fresh when it was made.
   */
  lemma FreshExactly(c: Config, states: seq<State>, steps: seq<Step>)
    requires ValidConfig(c) && Fits32(c) && IsRun(c, states, steps) && !states[|steps|].closing
    ensures (forall i :: 0 <= i < |states| ==> Fresh(states[i])) <==> (forall i :: 0 <= i < |steps| ==> StoresFresh(states[i], steps[i]))
  {
    if forall i :: 0 <= i < |states| ==> Fresh(states[i]) {
      forall i | 0 <= i < |steps| ensures StoresFresh(states[i], steps[i]) {
        assert Fresh(states[i + 1]);
        StoreDecides(c, states[i], steps[i]);
      }
    }
    if forall i :: 0 <= i < |steps| ==> StoresFresh(states[i], steps[i]) {
      forall i | 0 <= i < |states| ensures Fresh(states[i]) {
        if states[i].closing {
          ClosingStays(c, states, steps, i, |steps|);
        }
        RunIsFresh(c, states, steps, i);
      }
    }
  }

  /** What was advertised last went out in an ack. */
  ghost predicate WasSent(s: State) {
    s.advertised == 0 || exists ack :: ack in s.acks && ack.recvBufferSize == s.advertised
  }

  lemma AdvertisedFrame(c: Config, s: State, step: Step)
    requires Enabled(c, s, step) && !step.StoreAck? && !step.StoreEmptyAck?
    ensures Apply(c, s, step).advertised == s.advertised && Apply(c, s, step).acks == s.acks
  {
    if step.Handle? {
      HandleFrames(s, step.accepted);
    }
  }

  lemma SentStep(c: Config, s: State, step: Step)
    requires Enabled(c, s, step) && WasSent(s)
    ensures WasSent(Apply(c, s, step))
  {
    if step.StoreAck? {
      var a := s.arrivals[step.worker];
      assert Ack([a.number], a.read, a.rtt) in Apply(c, s, step).acks;
    } else if step.StoreEmptyAck? {
      assert Ack([], s.phase.read, 0) in Apply(c, s, step).acks;
    } else {
      AdvertisedFrame(c, s, step);
    }
  }

  /** In every run the size recorded as advertised is the size in an ack that was sent, by a worker or by the txer's report. */
  lemma {:induction false} AdvertisedWasSent(c: Config, states: seq<State>, steps: seq<Step>, i: nat)
    requires IsRun(c, states, steps) && i < |states|
    ensures WasSent(states[i])
  {
    if i > 0 {
      AdvertisedWasSent(c, states, steps, i - 1);
      SentStep(c, states[i - 1], steps[i - 1]);
    }
  }

  // ---------------------------------------------------------------- no release between a read and its store

  predicate NoneRead(arrivals: map<nat, Arrival>) {
    forall worker :: worker in arrivals ==> arrivals[worker].Taken?
  }

  predicate Undisturbed(s: State, step: Step) {
    step.Release? ==> NoneRead(s.arrivals)
  }

  /** Nothing a worker has read is more than what is there. */
  predicate ReadsBehind(s: State) {
    forall worker :: worker in s.arrivals && s.arrivals[worker].Sized? ==> s.arrivals[worker].read <= s.rcv.size
  }

  lemma ArrivalsUntouched(c: Config, s: State, step: Step)
    requires Enabled(c, s, step) && !step.Receive? && !step.ReadSize? && !step.StoreAck? && !step.Release?
    ensures Apply(c, s, step).arrivals == s.arrivals && Apply(c, s, step).rcv.size == s.rcv.size
  {
    if OfWriter(step) || OfSender(step) || OfAcks(step) {
      SendingSideFrames(c, s, step);
    }
  }

  lemma WorkerReads(s: State, worker: nat)
    requires ReadsBehind(s) && worker in s.arrivals
    ensures s.arrivals[worker].Taken? ==> ReadsBehind(ReadArrival(s, worker))
    ensures s.arrivals[worker].Sized? ==> ReadsBehind(StoreArrival(s, worker))
  {
  }

  lemma ReceiveReads(c: Config, s: State, step: Step)
    requires ReadsBehind(s) && Enabled(c, s, step) && step.Receive? && Apply(c, s, step).rcv.size >= s.rcv.size
    ensures ReadsBehind(Apply(c, s, step))
  {
  }

  lemma ReleaseReads(s: State)
    requires s.phase.Handled? && NoneRead(s.arrivals)
    ensures ReadsBehind(ReleaseHand(s))
  {
  }

  lemma ReadsBehindStep(c: Config, s: State, step: Step)
    requires Inv(c, s) && Fits32(c) && !s.closing && Enabled(c, s, step) && ReadsBehind(s) && Undisturbed(s, step)
    ensures ReadsBehind(Apply(c, s, step))
  {
    if step.Receive? {
      ArrivalGrows(c, s, step);
      ReceiveReads(c, s, step);
    } else if step.ReadSize? || step.StoreAck? {
      WorkerReads(s, step.worker);
    } else if step.Release? {
      ReleaseReads(s);
    } else {
      ArrivalsUntouched(c, s, step);
    }
  }

  lemma {:induction false} ReadsStayBehind(c: Config, states: seq<State>, steps: seq<Step>, i: nat)
    requires ValidConfig(c) && Fits32(c) && IsRun(c, states, steps) && i < |states| && !states[i].closing
    requires forall k :: 0 <= k < i ==> Undisturbed(states[k], steps[k])
    ensures ReadsBehind(states[i])
  {
    if i > 0 {
      if states[i - 1].closing {
        ClosingStays(c, states, steps, i - 1, i);
      }
      ReadsStayBehind(c, states, steps, i - 1);
      RunKeeps(c, states, steps, i - 1);
      ReadsBehindStep(c, states[i - 1], steps[i - 1]);
    }
  }

  /**
   If the txer releases nothing between a worker's read and its store, the last advertised size is
   at most 10000 or half of it at most the real size, in every state outside the adjustment; a
   drained receiver has advertised at most 10000.
   */
  lemma AdvertisedIsFresh(c: Config, states: seq<State>, steps: seq<Step>, i: nat)
    requires ValidConfig(c) && Fits32(c) && IsRun(c, states, steps) && i < |states| && !states[i].closing
    requires forall k :: 0 <= k < i ==> Undisturbed(states[k], steps[k])
    ensures Adjusting(states[i].phase) || FreshlyAdvertised(states[i].rcv.size, states[i].advertised)
    ensures Drained(states[i]) ==> states[i].advertised <= 10000
  {
    forall k | 0 <= k < i ensures StoresFresh(states[k], steps[k]) {
      if states[k].closing {
        ClosingStays(c, states, steps, k, i);
      }
      ReadsStayBehind(c, states, steps, k);
    }
    RunIsFresh(c, states, steps, i);
    if Drained(states[i]) {
      DrainedIsZero(c, states[i]);
    }
  }

  /** Nothing is held and the txer waits for more. */
  predicate Drained(s: State) {
    s.rcv.tree == map[] && s.rcv.queue == [] && (s.phase.Fetch? || s.phase.Primed?)
  }

  // ---------------------------------------------------------------- a late store

  lemma FirstArrival(c: Config, p: Payload)
    requires p.sequence == 0 && |p.data| < TWO32 && c.txQueueSize >= 1
    ensures !Refuses(NewRecv(c.txQueueSize), 0, c.rxBufferSize)
    ensures ReceiveUnordered(NewRecv(c.txQueueSize), p, c.rxBufferSize) == Recv(map[], 0, 0, |p.data|, [p], c.txQueueSize)
  {
    SmallStays(|p.data|);
    var tree: map<int, Payload> := map[][0 := p];
    assert tree - {0} == map[];
  }

  /** The first message sent, received and queued, and the size read but not stored. */
  lemma ReadOnArrival(c: Config, m: Write) returns (steps: seq<Step>, s: State)
    requires ValidConfig(c) && c.endpoint.mtu == 0 && c.txQueueSize >= 1
    requires ValidWrite(m) && |m.buffer| <= c.maxPayload && |m.buffer| < TWO32
    ensures Path(c, Init(c), steps, s)
    ensures s.phase.Fetch? && s.advertised == 0 && !s.closing && s.consumer == FRESH
    ensures s.rcv == Recv(map[], 0, 0, |m.buffer|, [Whole(c, m, 0)], c.txQueueSize)
    ensures s.arrivals == map[0 := Sized(0, 0, |m.buffer|)]
  {
    var s0 := Init(c);
    var one := Offers(c, s0, m);
    var s1 := Offering(c, s0, m);
    var two := Sends(c, s1, 0);
    var s2 := Sent(s1, 0);
    PathJoins(c, s0, one, s1, two, s2);
    assert s2.w.log == [Whole(c, m, 0)];
    FirstArrival(c, Whole(c, m, 0));
    var three := Sees(c, s2, 0);
    s := Seen(c, s2, 0);
    steps := one + two + three;
    PathJoins(c, s0, one + two, s2, three, s);
  }

  /** The txer empties the queue before the store. */
  lemma StoreAfterRelease(c: Config, s: State, size: uint32) returns (steps: seq<Step>, t: State)
    requires s.phase.Fetch? && s.advertised <= 10000 && s.consumer == FRESH && s.arrivals == map[0 := Sized(0, 0, size)]
    requires |s.rcv.queue| == 1 && |s.rcv.queue[0].data| == size == s.rcv.size && s.rcv.tree == map[]
    requires !s.rcv.queue[0].flags.chunk && !Stops(s.rcv.queue[0]) && !s.rcv.queue[0].flags.circuitStart
    ensures Path(c, s, steps, t)
    ensures Drained(t) && t.rcv.size == 0 && t.arrivals == map[] && t.closing == s.closing && t.advertised == size
  {
    var four := Consumes(c, s);
    var u := Consumed(s);
    var five := Stores(c, u);
    t := StoreArrival(u, 0);
    steps := four + five;
    PathJoins(c, s, four, u, five, t);
    ReleaseSizeSubtracts(size, size);
    SmallStays(size);
  }

  /**
   A run to a drained receiver that has advertised more than 10000, for every write above that
   size: the size is read on arrival, the txer empties the buffer and finds nothing advertised
   yet, and then the read is stored.
   */
  lemma StaleRun(c: Config, m: Write) returns (steps: seq<Step>, s: State)
    requires ValidConfig(c) && c.endpoint.mtu == 0 && c.txQueueSize >= 1
    requires ValidWrite(m) && 10000 < |m.buffer| <= c.maxPayload && |m.buffer| < TWO32
    ensures Path(c, Init(c), steps, s) && Reachable(c, s)
    ensures Drained(s) && s.rcv.size == 0 && s.arrivals == map[] && !s.closing
    ensures s.advertised == |m.buffer| && !FreshlyAdvertised(s.rcv.size, s.advertised)
  {
    var before, read := ReadOnArrival(c, m);
    var after;
    after, s := StoreAfterRelease(c, read, |m.buffer|);
    steps := before + after;
    PathJoins(c, Init(c), before, read, after, s);
    PathReaches(c, steps, s);
  }
}
