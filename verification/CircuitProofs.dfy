/** Every step of a circuit keeps the whole invariant. */
module CircuitProofs {
  import opened Bytes
  import opened Circuit
  import opened Messages
  import opened ReceiveBuffer
  import opened Segmentation
  import opened SendBuffer
  import opened StreamProofs
  import opened Weights
  import WritePath

  lemma InitHolds(c: Config)
    requires ValidConfig(c)
    ensures Inv(c, Init(c))
  {
    var s := Init(c);
    NewSendAccounted(c.options);
    assert Missing(s.w, s.rcv) == map[];
    assert forall k: nat :: k <= 0 ==> s.w.log[..k] == [];
  }

  // ---------------------------------------------------------------- the log grows

  lemma GrowReceiving(log: seq<Payload>, p: Payload, wire: set<nat>, r: Recv, taken: nat)
    requires Receiving(log, wire, r, taken)
    ensures Receiving(log + [p], wire, r, taken)
  {
    assert (log + [p])[taken..r.sequence + 1] == log[taken..r.sequence + 1];
  }

  lemma GrowReplaying(log: seq<Payload>, p: Payload, phase: Phase, taken: nat, consumer: Consumer)
    requires Replaying(log, phase, taken, consumer)
    ensures Replaying(log + [p], phase, taken, consumer)
  {
    if phase.Halted? {
      var k: nat :| k <= taken && consumer.out == Replay(log[..k]).out;
      assert (log + [p])[..k] == log[..k];
    } else {
      var k := Processed(phase, taken);
      assert (log + [p])[..k] == log[..k];
    }
  }

  lemma GrowSending(c: Config, log: seq<Payload>, p: Payload, entered: set<nat>, snd: Send)
    requires Sending(c, log, entered, snd)
    ensures Sending(c, log + [p], entered, snd)
  {
  }

  lemma NothingYet(s: State)
    requires s.w.log == [] && Receiving(s.w.log, s.wire, s.rcv, s.taken) && Replaying(s.w.log, s.phase, s.taken, s.consumer)
    ensures Occupied(s.rcv, s.phase) == 0
  {
    assert forall k :: k !in s.rcv.tree;
    assert s.rcv.queue == [];
  }

  /** A new number is beyond everything accepted, except the very first one. */
  lemma GrowKeepsCap(c: Config, s: State, v: Writer, p: Payload)
    requires SenderInv(c, s) && ReceiverInv(c, s) && Capped(c, s.closing, s.w, s.rcv, s.phase)
    requires v.log == s.w.log + [p] && |p.data| <= c.maxPayload
    requires v.entered + v.offered <= s.w.entered + s.w.offered + {|s.w.log|}
    ensures Capped(c, s.closing, v, s.rcv, s.phase)
  {
    var before, after := Missing(s.w, s.rcv), Missing(v, s.rcv);
    if s.rcv.maxSequence < |s.w.log| {
      TotalCovered(after, before);
    } else {
      NothingYet(s);
      OnlyOne(after, p);
    }
  }

  lemma {:induction false} OnlyOne(m: map<int, Payload>, p: Payload)
    requires forall k :: k in m ==> k == 0 && m[k] == p
    ensures Total(m) <= |p.data|
  {
    TotalCovered(m, map[0 := p]);
    TotalInsert(map[], 0, p);
    assert map[][0 := p] == map[0 := p];
  }

  lemma BeginKeeps(c: Config, s: State, m: Write)
    requires Core(c, s) && Enabled(c, s, BeginWrite(m))
    ensures Core(c, s.(w := BeginWriting(s.w, m)))
  {
    assert Missing(BeginWriting(s.w, m), s.rcv) == Missing(s.w, s.rcv);
  }

  /** Taking a number keeps everything, whatever becomes of it later. */
  lemma GrowCore(c: Config, s: State, v: Writer, wire: set<nat>, p: Payload)
    requires Core(c, s) && Numbered(c, v, wire) && s.wire <= wire && |p.data| <= c.maxPayload
    requires v.log == s.w.log + [p] && v.entered == s.w.entered && v.offered <= s.w.offered + {|s.w.log|}
    ensures Core(c, s.(w := v, wire := wire))
  {
    GrowSending(c, s.w.log, p, s.w.entered, s.snd);
    GrowReceiving(s.w.log, p, s.wire, s.rcv, s.taken);
    GrowReplaying(s.w.log, p, s.phase, s.taken, s.consumer);
    GrowKeepsCap(c, s, v, p);
    WireGrows(v.log, s.wire, wire, s.rcv, s.taken);
  }

  lemma WireGrows(log: seq<Payload>, before: set<nat>, after: set<nat>, r: Recv, taken: nat)
    requires Receiving(log, before, r, taken) && before <= after
    ensures Receiving(log, after, r, taken)
  {
  }

  lemma CutKeeps(c: Config, s: State, p: Payload, next: Writing)
    requires Core(c, s) && MayCut(s.w) && NextPayload(c.endpoint, s.w.writing.value, |s.w.log|) == Cut(p, next)
    ensures Core(c, s.(w := TakeChunk(c.endpoint, s.w, p, next)))
  {
    CutFits(c.endpoint, s.w.writing.value, |s.w.log|);
    CutStaysSmall(c.endpoint, s.w.writing.value, |s.w.log|);
    TakeKeepsNumbered(c, s.w, s.wire, p, next);
    GrowCore(c, s, TakeChunk(c.endpoint, s.w, p, next), s.wire, p);
  }

  lemma CutStaysSmall(e: Endpoint, w: Writing, n: nat)
    requires ValidWriting(w) && n < TWO31 && NextPayload(e, w, n).Cut?
    ensures ValidWriting(NextPayload(e, w, n).next) && |NextPayload(e, w, n).next.rest| <= |w.rest|
  {
  }

  lemma TakeKeepsNumbered(c: Config, w: Writer, wire: set<nat>, p: Payload, next: Writing)
    requires Numbered(c, w, wire) && w.current.None? && w.writing.Some? && |w.log| < TWO31
    requires p.sequence == |w.log| && |p.data| <= c.maxPayload
    requires ValidWriting(next) && |next.rest| <= |w.writing.value.rest|
    ensures Numbered(c, TakeChunk(c.endpoint, w, p, next), wire)
  {
  }

  lemma FailKeepsNumbered(c: Config, w: Writer, wire: set<nat>, p: Payload)
    requires Numbered(c, w, wire) && w.current.None? && MayTake(w, p) && p.data == []
    ensures Numbered(c, TakeFailing(w, p), wire)
  {
  }

  lemma ControlKeepsNumbered(c: Config, w: Writer, wire: set<nat>, p: Payload)
    requires Numbered(c, w, wire) && MayTake(w, p) && p.data == []
    ensures Numbered(c, TakeControl(w, p), wire)
  {
  }

  lemma EndKeepsNumbered(c: Config, w: Writer, wire: set<nat>, p: Payload)
    requires Numbered(c, w, wire) && MayTake(w, p) && p.data == []
    ensures Numbered(c, w.(log := w.log + [p]), wire + {|w.log|})
  {
  }

  lemma CutFailsKeeps(c: Config, s: State, p: Payload)
    requires Core(c, s) && MayCut(s.w) && p.data == [] && MayTake(s.w, p)
    ensures Core(c, s.(w := TakeFailing(s.w, p)))
  {
    FailKeepsNumbered(c, s.w, s.wire, p);
    GrowCore(c, s, TakeFailing(s.w, p), s.wire, p);
  }

  lemma ControlKeeps(c: Config, s: State, p: Payload)
    requires Core(c, s) && MayTake(s.w, p) && IsControl(p)
    ensures Core(c, s.(w := TakeControl(s.w, p)))
  {
    ControlKeepsNumbered(c, s.w, s.wire, p);
    GrowCore(c, s, TakeControl(s.w, p), s.wire, p);
  }

  lemma EndKeeps(c: Config, s: State, p: Payload)
    requires Core(c, s) && MayTake(s.w, p) && IsControl(p)
    ensures Core(c, s.(w := s.w.(log := s.w.log + [p]), wire := s.wire + {|s.w.log|}))
  {
    EndKeepsNumbered(c, s.w, s.wire, p);
    GrowCore(c, s, s.w.(log := s.w.log + [p]), s.wire + {|s.w.log|}, p);
  }

  // ---------------------------------------------------------------- the send side

  lemma EnterNumbered(c: Config, w: Writer, wire: set<nat>, n: nat)
    requires Numbered(c, w, wire) && n in w.offered
    ensures Numbered(c, EnterBuffer(w, n), wire)
  {
  }

  lemma EnterSending(c: Config, w: Writer, snd: Send, n: nat)
    requires Sending(c, w.log, w.entered, snd) && n !in w.entered && n < |w.log| && w.log[n].sequence == n
    ensures Sending(c, w.log, w.entered + {n}, Buffered(snd, w.log[n]))
  {
    BufferedKeeps(c.options, snd, w.log[n]);
  }

  lemma EnterMissing(w: Writer, r: Recv, n: nat)
    requires n in w.offered
    ensures Missing(EnterBuffer(w, n), r) == Missing(w, r)
  {
  }

  lemma EnterBounded(c: Config, s: State, n: nat)
    requires SenderInv(c, s) && n in s.w.offered && s.budget > 0 && n < |s.w.log|
    ensures Windowed(c, s.closing, Buffered(s.snd, s.w.log[n]), s.budget - 1)
  {
    if SenderFits32(c) && !s.closing {
      AdmitKeepsBound(c.options, s.snd, s.budget, c.maxPayload, s.w.log[n]);
    }
  }

  lemma EnterLossless(entered: set<nat>, snd: Send, p: Payload, r: Recv)
    requires Lossless(entered, snd.buffer, r) && p.sequence >= 0
    ensures Lossless(entered + {p.sequence}, Buffered(snd, p).buffer, r)
  {
  }

  lemma EnterKeeps(c: Config, s: State, n: nat)
    requires Core(c, s) && n in s.w.offered && s.budget > 0 && n < |s.w.log|
    ensures Core(c, AdmitNext(s, n))
  {
    EnterNumbered(c, s.w, s.wire, n);
    EnterSending(c, s.w, s.snd, n);
    EnterMissing(s.w, s.rcv, n);
    EnterBounded(c, s, n);
    EnterLossless(s.w.entered, s.snd, s.w.log[n], s.rcv);
    var t := AdmitNext(s, n);
    assert SenderInv(c, t);
    assert ReceiverInv(c, t);
  }

  lemma ForwardKeeps(c: Config, s: State, n: nat)
    requires Core(c, s) && n in s.w.entered
    ensures Core(c, PutOnWire(s, n))
  {
    assert Missing(Forwarded(s.w, n), s.rcv) == Missing(s.w, s.rcv);
  }

  lemma BurnKeeps(c: Config, s: State, n: nat)
    requires Core(c, s) && n in s.w.offered
    ensures Core(c, s.(w := BurnNumber(s.w, n)))
  {
    TotalCovered(Missing(BurnNumber(s.w, n), s.rcv), Missing(s.w, s.rcv));
  }

  lemma CheckKeeps(c: Config, s: State)
    requires Core(c, s)
    ensures Core(c, s.(budget := Budget(c.options, s.snd, s.closing)))
  {
    if SenderFits32(c) && !s.closing {
      CheckKeepsBound(c.options, s.snd, s.budget, c.maxPayload);
    }
  }

  lemma AckArrivesKeeps(c: Config, s: State, ack: Ack, now: nat)
    requires Core(c, s) && ack in s.acks
    ensures Core(c, s.(snd := ReceiveAck(c.options, s.snd, ack, now)))
  {
    AckKeeps(c.options, s.snd, ack, now);
  }

  lemma {:induction false} RetransmitStepKeeps(c: Config, s: State, count: nat)
    requires Core(c, s)
    ensures Core(c, s.(snd := RetransmitMany(c.options, s.snd, count)))
  {
    RetransmitKeeps(c.options, s.snd, count);
  }

  lemma ClosingKeeps(c: Config, s: State)
    requires Core(c, s)
    ensures Core(c, s.(closing := true))
  {
  }

  lemma ShutKeeps(c: Config, s: State)
    requires Core(c, s)
    ensures Core(c, s.(shut := true))
  {
  }

  // ---------------------------------------------------------------- the receive side

  /** Moving the next payload extends the queue by the next log entry. */
  lemma QueueNextReceives(r: Recv, log: seq<Payload>, wire: set<nat>, taken: nat)
    requires Receiving(log, wire, r, taken)
    ensures Receiving(log, wire, QueueNext(r), taken)
    ensures QueueNext(r).maxSequence == r.maxSequence && QueueNext(r).size == r.size && QueueNext(r).capacity == r.capacity
  {
    QueueNextKeeps(r);
    var next := r.sequence + 1;
    if next in r.tree && |r.queue| < r.capacity {
      assert log[taken..next + 1] == log[taken..next] + [log[next]];
    }
  }

  lemma InsertReceives(r: Recv, log: seq<Payload>, wire: set<nat>, taken: nat, n: nat, hand: nat)
    requires Receiving(log, wire, r, taken) && n < |log| && n in wire && n > r.sequence && log[n].sequence == n
    requires r.size == ToU32(Held(r) + hand)
    ensures Receiving(log, wire, Insert(r, log[n]), taken)
  {
    InsertKeeps(r, log[n], hand);
  }

  /** What one arrival does to the buffer. */
  lemma ArriveReceives(c: Config, log: seq<Payload>, wire: set<nat>, r: Recv, taken: nat, phase: Phase, n: nat)
    requires Receiving(log, wire, r, taken) && Conserved(r, phase) && Ready(c, r, phase)
    requires n in wire && n < |log| && log[n].sequence == n
    ensures var t := ReceiveUnordered(r, log[n], c.rxBufferSize);
            && Receiving(log, wire, t, taken) && Conserved(t, phase) && Ready(c, t, phase)
            && Held(t) == Held(r) + (if Accepted(r, n) || Refuses(r, n, c.rxBufferSize) then 0 else |log[n].data|)
            && (forall m :: Accepted(t, m) <==> Accepted(r, m) || (m == n && !Refuses(r, n, c.rxBufferSize)))
            && t.maxSequence == (if Accepted(r, n) || Refuses(r, n, c.rxBufferSize) || n <= r.maxSequence then r.maxSequence else n)
  {
    ReceiveKeeps(r, log[n], c.rxBufferSize, HandBytes(phase));
    ArrivePlaces(c, log, wire, r, taken, phase, n);
  }

  lemma ArrivePlaces(c: Config, log: seq<Payload>, wire: set<nat>, r: Recv, taken: nat, phase: Phase, n: nat)
    requires Receiving(log, wire, r, taken) && Conserved(r, phase) && Ready(c, r, phase)
    requires n in wire && n < |log| && log[n].sequence == n
    ensures var t := ReceiveUnordered(r, log[n], c.rxBufferSize);
            && Receiving(log, wire, t, taken) && Ready(c, t, phase)
            && t.maxSequence == (if Accepted(r, n) || Refuses(r, n, c.rxBufferSize) || n <= r.maxSequence then r.maxSequence else n)
  {
    var p := log[n];
    if !(p.sequence <= r.sequence || Refuses(r, p.sequence, c.rxBufferSize)) {
      InsertReceives(r, log, wire, taken, n, HandBytes(phase));
      QueueNextReceives(Insert(r, p), log, wire, taken);
      ArriveReady(c, Insert(r, p), phase);
    }
  }

  lemma ArriveReady(c: Config, r: Recv, phase: Phase)
    requires Ordered(r) && r.capacity == c.txQueueSize
    ensures Ready(c, QueueNext(r), phase)
  {
    QueueNextKeeps(r);
  }

  /** Unaccepted numbers are in the send buffer, or are the one chunk on offer, or carry no data. */
  lemma MissingIsOutstanding(c: Config, s: State, r: Recv)
    requires SenderInv(c, s)
    requires forall n :: n in s.w.entered && !Accepted(r, n) ==> n in s.snd.buffer
    ensures Total(Missing(s.w, r)) <= Total(s.snd.buffer) + c.maxPayload
  {
    var m := Missing(s.w, r);
    if s.w.current.Some? && s.w.current.value in m && s.w.current.value in s.w.offered {
      TotalRemove(m, s.w.current.value);
      TotalCovered(m - {s.w.current.value}, s.snd.buffer);
    } else {
      TotalCovered(m, s.snd.buffer);
    }
  }

  lemma MissingShrinks(w: Writer, r: Recv, t: Recv, n: nat)
    requires t.maxSequence == r.maxSequence && n < |w.log|
    requires forall m :: Accepted(t, m) <==> Accepted(r, m) || m == n
    ensures Missing(w, t) == Missing(w, r) - {n}
  {
  }

  /** Filling a gap moves bytes from missing to held. */
  lemma GapKeepsCap(c: Config, w: Writer, r: Recv, t: Recv, phase: Phase, n: nat)
    requires Occupied(r, phase) + Total(Missing(w, r)) <= Ceiling(c)
    requires n < |w.log| && !Accepted(r, n) && n <= r.maxSequence && (n in w.entered || w.log[n].data == [])
    requires t.maxSequence == r.maxSequence && Held(t) == Held(r) + |w.log[n].data|
    requires forall m :: Accepted(t, m) <==> Accepted(r, m) || m == n
    ensures Occupied(t, phase) + Total(Missing(w, t)) <= Ceiling(c)
  {
    MissingShrinks(w, r, t, n);
    var before := Missing(w, r);
    if n in before {
      TotalRemove(before, n);
    } else {
      assert before - {n} == before;
    }
  }

  lemma BoundedTotal(c: Config, snd: Send, budget: nat)
    requires Bounded(c.options, snd, budget, c.maxPayload)
    ensures Total(snd.buffer) <= c.options.maxSize + 2 * c.maxPayload
  {
  }

  /** A new highest number is only taken below the limit, and then all that is missing is still outstanding. */
  lemma LeapKeepsCap(c: Config, w: Writer, r: Recv, t: Recv, phase: Phase, n: nat)
    requires Conserved(r, phase) && Fits32(c) && Occupied(r, phase) <= Ceiling(c) && r.size <= c.rxBufferSize
    requires n < |w.log| && |w.log[n].data| <= c.maxPayload && Held(t) == Held(r) + |w.log[n].data|
    requires Total(Missing(w, t)) <= c.options.maxSize + 3 * c.maxPayload
    ensures Occupied(t, phase) + Total(Missing(w, t)) <= Ceiling(c)
  {
    SmallStays(Occupied(r, phase));
  }

  lemma ArriveKeepsCap(c: Config, s: State, n: nat)
    requires Core(c, s) && n in s.wire && n < |s.w.log|
    ensures Capped(c, s.closing, s.w, ReceiveUnordered(s.rcv, s.w.log[n], c.rxBufferSize), s.phase)
  {
    var r, t := s.rcv, ReceiveUnordered(s.rcv, s.w.log[n], c.rxBufferSize);
    ArriveReceives(c, s.w.log, s.wire, r, s.taken, s.phase, n);
    if Fits32(c) && !s.closing {
      if Accepted(r, n) || Refuses(r, n, c.rxBufferSize) {
        assert Missing(s.w, t) == Missing(s.w, r);
      } else if n <= r.maxSequence {
        GapKeepsCap(c, s.w, r, t, s.phase, n);
      } else {
        MissingIsOutstanding(c, s, t);
        BoundedTotal(c, s.snd, s.budget);
        LeapKeepsCap(c, s.w, r, t, s.phase, n);
      }
    }
  }

  lemma ReceiveStepKeeps(c: Config, s: State, n: nat, worker: nat, rtt: uint16)
    requires Core(c, s) && n in s.wire && n < |s.w.log|
    ensures Core(c, Arrive(c, s, s.w.log[n], worker, rtt))
  {
    ArriveReceives(c, s.w.log, s.wire, s.rcv, s.taken, s.phase, n);
    ArriveKeepsCap(c, s, n);
  }

  lemma ReadSizeKeeps(c: Config, s: State, worker: nat)
    requires Core(c, s) && worker in s.arrivals && s.arrivals[worker].Taken?
    ensures Core(c, ReadArrival(s, worker))
  {
    assert SenderInv(c, ReadArrival(s, worker)) && ReceiverInv(c, ReadArrival(s, worker));
  }

  lemma StoreAckKeeps(c: Config, s: State, worker: nat)
    requires Core(c, s) && worker in s.arrivals && s.arrivals[worker].Sized?
    ensures Core(c, StoreArrival(s, worker))
  {
    assert SenderInv(c, StoreArrival(s, worker)) && ReceiverInv(c, StoreArrival(s, worker));
    assert AckSound(StoreArrival(s, worker).acks, s.rcv);
  }

  /** Whoever accepts the same numbers owes and lacks the same ones. */
  lemma SameAccepted(s: State, t: Recv)
    requires (forall n :: Accepted(t, n) <==> Accepted(s.rcv, n)) && t.maxSequence == s.rcv.maxSequence
    requires AckSound(s.acks, s.rcv) && ArrivalSound(s.arrivals, s.rcv) && Lossless(s.w.entered, s.snd.buffer, s.rcv)
    ensures Missing(s.w, t) == Missing(s.w, s.rcv)
    ensures AckSound(s.acks, t) && ArrivalSound(s.arrivals, t) && Lossless(s.w.entered, s.snd.buffer, t)
  {
  }

  lemma PrimeReceives(c: Config, s: State)
    requires ReceiverInv(c, s) && s.phase.Fetch?
    ensures ReceiverInv(c, s.(rcv := QueueNext(s.rcv), phase := Primed))
    ensures Occupied(QueueNext(s.rcv), Primed) == Occupied(s.rcv, s.phase)
  {
    QueueNextKeeps(s.rcv);
    QueueNextReceives(s.rcv, s.w.log, s.wire, s.taken);
  }

  lemma PrimeKeeps(c: Config, s: State)
    requires Core(c, s) && s.phase.Fetch?
    ensures Core(c, s.(rcv := QueueNext(s.rcv), phase := Primed))
  {
    PrimeReceives(c, s);
    QueueNextKeeps(s.rcv);
    SameAccepted(s, QueueNext(s.rcv));
    var t := s.(rcv := QueueNext(s.rcv), phase := Primed);
    assert SenderInv(c, t) && CrossInv(c, t);
  }

  /** The head of the queue moves into the txer's hand; nothing else changes place. */
  lemma DequeueReceives(c: Config, s: State)
    requires ReceiverInv(c, s) && (s.phase.Fetch? || s.phase.Primed?) && s.rcv.queue != []
    ensures var t := Dequeue(s);
            ReceiverInv(c, t) && Occupied(t.rcv, t.phase) == Occupied(s.rcv, s.phase)
  {
    var t := Dequeue(s);
    assert t.rcv.queue == s.w.log[t.taken..s.rcv.sequence + 1];
    assert Held(s.rcv) == Held(t.rcv) + |s.rcv.queue[0].data|;
  }

  lemma DequeueKeeps(c: Config, s: State)
    requires Core(c, s) && (s.phase.Fetch? || s.phase.Primed?) && s.rcv.queue != []
    ensures Core(c, Dequeue(s))
  {
    DequeueReceives(c, s);
    var t := Dequeue(s);
    SameAccepted(s, t.rcv);
    assert SenderInv(c, t) && CrossInv(c, t);
  }

  lemma WireIsUnburned(c: Config, s: State)
    requires Numbered(c, s.w, s.wire) && Receiving(s.w.log, s.wire, s.rcv, s.taken)
    ensures Unburned(s.w.burned, s.taken)
  {
    forall n | n in s.w.burned ensures n >= s.taken {
      assert n !in s.wire;
    }
  }

  lemma HandleReplays(s: State, accepted: bool)
    requires s.phase.Holding? && Replaying(s.w.log, s.phase, s.taken, s.consumer)
    requires Releasing(s.w.log, s.w.burned) && Unburned(s.w.burned, s.taken)
    ensures var t := HandleHand(s, accepted);
            Replaying(s.w.log, t.phase, s.taken, t.consumer) && HandBytes(t.phase) == HandBytes(s.phase)
  {
    var k := s.taken - 1;
    assert s.w.log[..s.taken] == s.w.log[..k] + [s.w.log[k]];
    WritePath.ReplaySnoc(s.w.log[..k], s.w.log[k]);
    assert FullRelease(s.w.log, k);
    var t := HandleHand(s, accepted);
    assert t.consumer.out == Replay(s.w.log[..s.taken]).out || t.consumer.out == Replay(s.w.log[..k]).out;
  }

  lemma HandleFrames(s: State, accepted: bool)
    requires s.phase.Holding?
    ensures var t := HandleHand(s, accepted);
            t == s.(phase := t.phase, consumer := t.consumer) && (t.phase.Halted? || t.phase.Handled?)
  {
  }

  /** Nothing but the txer's own bookkeeping changes while it holds a payload. */
  lemma PhaseKeeps(c: Config, s: State, phase: Phase, consumer: Consumer)
    requires Core(c, s) && s.phase.Holding? && (phase.Halted? || phase.Handled?)
    requires Replaying(s.w.log, phase, s.taken, consumer) && HandBytes(phase) == HandBytes(s.phase)
    ensures Core(c, s.(phase := phase, consumer := consumer))
  {
  }

  lemma HandleKeeps(c: Config, s: State, accepted: bool)
    requires Core(c, s) && s.phase.Holding? && Releasing(s.w.log, s.w.burned)
    ensures Core(c, HandleHand(s, accepted))
  {
    WireIsUnburned(c, s);
    HandleReplays(s, accepted);
    HandleFrames(s, accepted);
    PhaseKeeps(c, s, HandleHand(s, accepted).phase, HandleHand(s, accepted).consumer);
  }

  lemma ReleaseReceives(c: Config, s: State)
    requires ReceiverInv(c, s) && s.phase.Handled?
    ensures var t := ReleaseHand(s);
            ReceiverInv(c, t) && Occupied(t.rcv, t.phase) + |s.phase.p.data| == Occupied(s.rcv, s.phase)
  {
    var t := ReleaseHand(s);
    ReleaseSizeSubtracts(Occupied(s.rcv, s.phase), s.phase.released);
    assert Held(t.rcv) == Held(s.rcv);
  }

  lemma ReleaseKeeps(c: Config, s: State)
    requires Core(c, s) && s.phase.Handled?
    ensures Core(c, ReleaseHand(s))
  {
    ReleaseReceives(c, s);
    var t := ReleaseHand(s);
    SameAccepted(s, t.rcv);
    assert SenderInv(c, t) && CrossInv(c, t);
  }

  lemma NilKeeps(c: Config, s: State)
    requires Core(c, s) && s.phase.Primed?
    ensures Core(c, s.(phase := Halted(0)))
  {
    assert Replay(s.w.log[..s.taken]).out == s.consumer.out;
  }

  /** The txer's dealings with the advertised size touch nothing else. */
  lemma ReportKeeps(c: Config, s: State, phase: Phase, acks: set<Ack>, advertised: uint32)
    requires Core(c, s) && (s.phase.Checking? || s.phase.Reporting? || s.phase.Reported?)
    requires phase.Fetch? || phase.Reporting? || phase.Reported?
    requires forall ack :: ack in acks ==> ack in s.acks || ack.sequence == []
    ensures Core(c, s.(phase := phase, acks := acks, advertised := advertised))
  {
    var t := s.(phase := phase, acks := acks, advertised := advertised);
    assert AckSound(t.acks, t.rcv);
    assert ReceiverInv(c, t);
  }

  lemma StoreReportKeeps(c: Config, s: State)
    requires Core(c, s) && s.phase.Reported?
    ensures Core(c, StoreReport(s))
  {
    ReportKeeps(c, s, Fetch, s.acks + {Ack([], s.phase.read, 0)}, s.phase.read);
  }

  lemma CheckSizeKeeps(c: Config, s: State)
    requires Core(c, s) && s.phase.Checking?
    ensures Core(c, CheckAdvertised(s))
  {
    ReportKeeps(c, s, CheckAdvertised(s).phase, s.acks, s.advertised);
  }

  // ---------------------------------------------------------------- all steps

  predicate OfWriter(step: Step) {
    step.BeginWrite? || step.CutOne? || step.CutFails? || step.Control? || step.EndCircuit? || step.Burn?
  }

  predicate OfSender(step: Step) {
    step.Enter? || step.Forward? || step.Check?
  }

  predicate OfAcks(step: Step) {
    step.AckArrives? || step.Retransmit? || step.CloseWhenEmpty?
  }

  lemma WriterStep(c: Config, s: State, step: Step)
    requires Core(c, s) && Enabled(c, s, step) && OfWriter(step)
    ensures Core(c, Apply(c, s, step))
  {
    match step
    case BeginWrite(m) => BeginKeeps(c, s, m);
    case CutOne(p, next) => CutKeeps(c, s, p, next);
    case CutFails(p) => CutFailsKeeps(c, s, p);
    case Control(p) => ControlKeeps(c, s, p);
    case EndCircuit(p) => EndKeeps(c, s, p);
    case Burn(n) => BurnKeeps(c, s, n);
  }

  lemma SenderStep(c: Config, s: State, step: Step)
    requires Core(c, s) && Enabled(c, s, step) && OfSender(step)
    ensures Core(c, Apply(c, s, step))
  {
    match step
    case Enter(n) => EnterKeeps(c, s, n);
    case Forward(n) => ForwardKeeps(c, s, n);
    case Check => CheckKeeps(c, s);
  }

  lemma AckStep(c: Config, s: State, step: Step)
    requires Core(c, s) && Enabled(c, s, step) && OfAcks(step)
    ensures Core(c, Apply(c, s, step))
  {
    match step
    case AckArrives(ack, now) => AckArrivesKeeps(c, s, ack, now);
    case Retransmit(count) => RetransmitStepKeeps(c, s, count);
    case CloseWhenEmpty => ClosingKeeps(c, s);
  }

  lemma ReceiverStep(c: Config, s: State, step: Step)
    requires Core(c, s) && Releasing(s.w.log, s.w.burned) && Enabled(c, s, step) && !OfWriter(step) && !OfSender(step) && !OfAcks(step)
    ensures Core(c, Apply(c, s, step))
  {
    match step
    case Receive(n, worker, rtt) => ReceiveStepKeeps(c, s, n, worker, rtt);
    case ReadSize(worker) => ReadSizeKeeps(c, s, worker);
    case StoreAck(worker) => StoreAckKeeps(c, s, worker);
    case FetchQueued => DequeueKeeps(c, s);
    case Prime => PrimeKeeps(c, s);
    case FetchPrimed => DequeueKeeps(c, s);
    case FetchNil => NilKeeps(c, s);
    case CloseNotify => ShutKeeps(c, s);
    case Handle(accepted) => HandleKeeps(c, s, accepted);
    case Release => ReleaseKeeps(c, s);
    case CheckSize => CheckSizeKeeps(c, s);
    case ReadReport => ReportKeeps(c, s, Reported(s.rcv.size), s.acks, s.advertised);
    case StoreEmptyAck => StoreReportKeeps(c, s);
  }

  lemma CoreStep(c: Config, s: State, step: Step)
    requires Core(c, s) && Releasing(s.w.log, s.w.burned) && Enabled(c, s, step)
    ensures Core(c, Apply(c, s, step))
  {
    if OfWriter(step) {
      WriterStep(c, s, step);
    } else if OfSender(step) {
      SenderStep(c, s, step);
    } else if OfAcks(step) {
      AckStep(c, s, step);
    } else {
      ReceiverStep(c, s, step);
    }
  }

  lemma WriterStreamStep(c: Config, s: State, step: Step)
    requires Numbered(c, s.w, s.wire) && StreamInv(c, s.w) && Enabled(c, s, step) && OfWriter(step)
    ensures StreamInv(c, Apply(c, s, step).w)
  {
    assert BurnedBelow(s.w);
    match step
    case BeginWrite(m) => BeginKeepsStream(c, s.w, m);
    case CutOne(p, next) => CutKeepsStream(c, s.w, p, next);
    case CutFails(p) => FailKeepsStream(c, s.w, p);
    case Control(p) => ControlKeepsStream(c, s.w, TakeControl(s.w, p), p);
    case EndCircuit(p) => ControlKeepsStream(c, s.w, s.w.(log := s.w.log + [p]), p);
    case Burn(n) => BurnKeepsStream(c, s.w, n);
  }

  /** Only the writer and the send loop's admissions touch the writer's state. */
  lemma WriterUntouched(c: Config, s: State, step: Step)
    requires Enabled(c, s, step) && !OfWriter(step) && !step.Enter? && !step.Forward?
    ensures Apply(c, s, step).w == s.w
  {
  }

  lemma StreamStep(c: Config, s: State, step: Step)
    requires Numbered(c, s.w, s.wire) && StreamInv(c, s.w) && Enabled(c, s, step)
    ensures StreamInv(c, Apply(c, s, step).w)
  {
    if OfWriter(step) {
      WriterStreamStep(c, s, step);
    } else if step.Enter? || step.Forward? {
      ForwardKeepsStream(c, s.w, step.n);
    } else {
      WriterUntouched(c, s, step);
    }
  }

  lemma StepKeeps(c: Config, s: State, step: Step)
    requires Inv(c, s) && Enabled(c, s, step)
    ensures Inv(c, Apply(c, s, step))
  {
    CoreStep(c, s, step);
    StreamStep(c, s, step);
  }
}
