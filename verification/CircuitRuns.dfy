/** Pieces of concrete runs, for showing that a state can be reached. */
module CircuitRuns {
  import opened Bytes
  import opened Circuit
  import opened CircuitPaths
  import opened Messages
  import opened ReceiveBuffer
  import opened Segmentation
  import opened SendBuffer

  /** The only payload of a write without an MTU. */
  function Whole(c: Config, m: Write, n: nat): Payload
    requires n < TWO31
  {
    Payload(c.endpoint.circuitId, Flags(originator := c.endpoint.terminator), 0, n, m.headers, m.buffer)
  }

  /** The writer after it took the next number for all of `m`. */
  function Offering(c: Config, s: State, m: Write): State
    requires |s.w.log| < TWO31
  {
    var n := |s.w.log|;
    s.(w := s.w.(log := s.w.log + [Whole(c, m, n)], written := s.w.written + [DataMessage(m.buffer, m.headers)],
                 offered := s.w.offered + {n}, current := Some(n), writing := None))
  }

  predicate MayWrite(c: Config, s: State, m: Write) {
    && c.endpoint.mtu == 0 && s.w.writing.None? && s.w.current.None? && |s.w.log| < TWO31
    && ValidWrite(m) && |m.buffer| <= c.maxPayload
  }

  lemma Offers(c: Config, s: State, m: Write) returns (steps: seq<Step>)
    requires MayWrite(c, s, m)
    ensures Path(c, s, steps, Offering(c, s, m))
  {
    var cut := NextPayload(c.endpoint, Begin(m), |s.w.log|);
    var a := Apply(c, s, BeginWrite(m));
    var one := CutOne(cut.payload, cut.next);
    assert Apply(c, a, one) == Offering(c, s, m);
    assert Path(c, Apply(c, a, one), [], Offering(c, s, m));
    PathStep(c, a, one, [], Offering(c, s, m));
    PathStep(c, s, BeginWrite(m), [one] + [], Offering(c, s, m));
    steps := [BeginWrite(m)] + ([one] + []);
  }

  /** Number `n` in the send buffer and on the wire. */
  function Sent(s: State, n: nat): State
    requires n < |s.w.log|
  {
    s.(w := s.w.(offered := s.w.offered - {n}, entered := s.w.entered + {n}, current := if s.w.current == Some(n) then None else s.w.current),
       snd := Buffered(s.snd, s.w.log[n]), budget := 1, wire := s.wire + {n})
  }

  /** An open send buffer lets a payload in; an empty one always does. */
  lemma Sends(c: Config, s: State, n: nat) returns (steps: seq<Step>)
    requires n in s.w.offered && n < |s.w.log| && Budget(c.options, s.snd, s.closing) == 2
    ensures Path(c, s, steps, Sent(s, n)) && steps == [Check, Enter(n), Forward(n)]
  {
    var a := Apply(c, s, Check);
    var b := Apply(c, a, Enter(n));
    assert Apply(c, b, Forward(n)) == Sent(s, n);
    assert Path(c, Apply(c, b, Forward(n)), [], Sent(s, n));
    PathStep(c, b, Forward(n), [], Sent(s, n));
    PathStep(c, a, Enter(n), [Forward(n)] + [], Sent(s, n));
    PathStep(c, s, Check, [Enter(n)] + ([Forward(n)] + []), Sent(s, n));
    steps := [Check] + ([Enter(n)] + ([Forward(n)] + []));
  }

  /** Number `n` received, and the size read. */
  function Seen(c: Config, s: State, n: nat): State
    requires n < |s.w.log|
  {
    var after := ReceiveUnordered(s.rcv, s.w.log[n], c.rxBufferSize);
    s.(rcv := after, arrivals := map[0 := Sized(s.w.log[n].sequence, 0, after.size)])
  }

  lemma Sees(c: Config, s: State, n: nat) returns (steps: seq<Step>)
    requires n in s.wire && n < |s.w.log| && s.arrivals == map[] && !Refuses(s.rcv, s.w.log[n].sequence, c.rxBufferSize)
    ensures Path(c, s, steps, Seen(c, s, n))
  {
    var a := Apply(c, s, Receive(n, 0, 0));
    assert a.arrivals == map[0 := Taken(s.w.log[n].sequence, 0)];
    assert Apply(c, a, ReadSize(0)) == Seen(c, s, n);
    assert Path(c, Apply(c, a, ReadSize(0)), [], Seen(c, s, n));
    PathStep(c, a, ReadSize(0), [], Seen(c, s, n));
    PathStep(c, s, Receive(n, 0, 0), [ReadSize(0)] + [], Seen(c, s, n));
    steps := [Receive(n, 0, 0)] + ([ReadSize(0)] + []);
  }

  /** The head of the queue given to the peer and its bytes given back. */
  function Consumed(s: State): State
    requires s.rcv.queue != []
  {
    var p := s.rcv.queue[0];
    s.(rcv := s.rcv.(queue := s.rcv.queue[1..], size := ReleaseSize(s.rcv.size, |p.data|)), taken := s.taken + 1,
       phase := Fetch, consumer := s.consumer.(out := s.consumer.out + [Delivery(p.data, p.headers, p.flags.writeFailed)]))
  }

  lemma Consumes(c: Config, s: State) returns (steps: seq<Step>)
    requires s.phase.Fetch? && s.rcv.queue != [] && s.advertised <= 10000 && !s.consumer.stopped
    requires !s.rcv.queue[0].flags.chunk && !Stops(s.rcv.queue[0]) && !s.rcv.queue[0].flags.circuitStart
    ensures Path(c, s, steps, Consumed(s))
  {
    var a := Apply(c, s, FetchQueued);
    var b := Apply(c, a, Handle(true));
    assert b.phase == Handled(s.rcv.queue[0], |s.rcv.queue[0].data|);
    var d := Apply(c, b, Release);
    assert Apply(c, d, CheckSize) == Consumed(s);
    assert Path(c, Apply(c, d, CheckSize), [], Consumed(s));
    PathStep(c, d, CheckSize, [], Consumed(s));
    PathStep(c, b, Release, [CheckSize] + [], Consumed(s));
    PathStep(c, a, Handle(true), [Release] + ([CheckSize] + []), Consumed(s));
    PathStep(c, s, FetchQueued, [Handle(true)] + ([Release] + ([CheckSize] + [])), Consumed(s));
    steps := [FetchQueued] + ([Handle(true)] + ([Release] + ([CheckSize] + [])));
  }

  lemma Stores(c: Config, s: State) returns (steps: seq<Step>)
    requires 0 in s.arrivals && s.arrivals[0].Sized?
    ensures Path(c, s, steps, StoreArrival(s, 0))
  {
    assert Path(c, StoreArrival(s, 0), [], StoreArrival(s, 0));
    PathStep(c, s, StoreAck(0), [], StoreArrival(s, 0));
    steps := [StoreAck(0)] + [];
  }
}
