/**
 What the sender can still hear: acks on their way, acks for numbers the receiver still takes, and
 its own retransmissions. If any of it opens the send buffer, a live circuit can finish.
 */
module CircuitSignals {
  import opened Bytes
  import opened Circuit
  import opened CircuitFinish
  import opened CircuitPaths
  import opened CircuitProgress
  import opened Messages
  import opened ReceiveBuffer
  import opened SendBuffer

  datatype Signal =
    | Hears(ack: Ack, now: nat)
    | Resends(count: nat)

  function Hear(o: Options, s: Send, signal: Signal): Send {
    match signal
    case Hears(ack, now) => ReceiveAck(o, s, ack, now)
    case Resends(count) => RetransmitMany(o, s, count)
  }

  function HearAll(o: Options, s: Send, signals: seq<Signal>): Send
    decreases |signals|
  {
    if signals == [] then s else HearAll(o, Hear(o, s, signals[0]), signals[1..])
  }

  predicate AboutToSend(arrival: Arrival, ack: Ack) {
    arrival.Sized? && ack == Ack([arrival.number], arrival.read, arrival.rtt)
  }

  /** Sent, or about to be sent by a worker or the txer, with the size already read. */
  ghost predicate OnItsWay(s: State, ack: Ack) {
    || ack in s.acks
    || (exists worker :: worker in s.arrivals && AboutToSend(s.arrivals[worker], ack))
    || (s.phase.Reported? && ack == Ack([], s.phase.read, 0))
  }

  /** Only numbers the receiver does not refuse, and a size that blocks the sender unless `small` ones may come too. */
  ghost predicate StillToCome(c: Config, r: Recv, small: bool, ack: Ack) {
    (small || ack.recvBufferSize > c.options.maxSize) && forall i :: 0 <= i < |ack.sequence| ==> ack.sequence[i] <= r.maxSequence
  }

  ghost predicate Possible(c: Config, s: State, small: bool, signal: Signal) {
    signal.Hears? ==> OnItsWay(s, signal.ack) || StillToCome(c, s.rcv, small, signal.ack)
  }

  ghost predicate AllPossible(c: Config, s: State, small: bool, signals: seq<Signal>) {
    forall i :: 0 <= i < |signals| ==> Possible(c, s, small, signals[i])
  }

  ghost predicate Opening(c: Config, s: State, small: bool, signals: seq<Signal>) {
    AllPossible(c, s, small, signals) && Budget(c.options, HearAll(c.options, s.snd, signals), s.closing) > 0
  }

  /** Something the sender can still hear opens the buffer. */
  ghost predicate CanOpen(c: Config, s: State, small: bool) {
    exists signals :: Opening(c, s, small, signals)
  }

  // ---------------------------------------------------------------- what the window depends on

  /** The sender without what does not move the window. */
  function WindowOf(s: Send): Send {
    s.(recvSize := 0, duplicateAcks := 0, retxScale := 0.0, lastRtt := 0, retxThreshold := 0)
  }

  /** The same window, and blocked by the receiver's size only if `model` is. */
  predicate Covers(o: Options, actual: Send, model: Send) {
    WindowOf(actual) == WindowOf(model) && (model.recvSize <= o.maxSize ==> actual.recvSize <= o.maxSize)
  }

  lemma SameFields(a: Send, b: Send)
    requires WindowOf(a) == WindowOf(b)
    ensures a.buffer == b.buffer && a.windowSize == b.windowSize && a.sendSize == b.sendSize
    ensures a.accumulator == b.accumulator && a.successfulAcks == b.successfulAcks && a.retransmits == b.retransmits
  {
  }

  lemma IncreaseAlike(o: Options, a: Send, b: Send)
    requires WindowOf(a) == WindowOf(b)
    ensures WindowOf(Increase(o, a)) == WindowOf(Increase(o, b))
  {
    SameFields(a, b);
    assert Scaled(a.accumulator, o.increaseScale) == Scaled(b.accumulator, o.increaseScale);
  }

  lemma AckOneAlike(o: Options, a: Send, b: Send, n: int)
    requires WindowOf(a) == WindowOf(b)
    ensures WindowOf(AckOne(o, a, n)) == WindowOf(AckOne(o, b, n))
  {
    SameFields(a, b);
    if n in a.buffer {
      IncreaseAlike(o, Counted(a, n), Counted(b, n));
      assert AckOne(o, a, n) == Increase(o, Counted(a, n)) && AckOne(o, b, n) == Increase(o, Counted(b, n));
    }
  }

  lemma DuplicateIsIdle(o: Options, s: Send, n: int)
    requires n !in s.buffer
    ensures WindowOf(AckOne(o, s, n)) == WindowOf(s)
  {
  }

  lemma {:induction false} AckAllAlike(o: Options, a: Send, b: Send, numbers: seq<int>)
    requires WindowOf(a) == WindowOf(b)
    ensures WindowOf(AckAll(o, a, numbers)) == WindowOf(AckAll(o, b, numbers))
    decreases |numbers|
  {
    if numbers != [] {
      var front, last := numbers[..|numbers| - 1], numbers[|numbers| - 1];
      AckAllAlike(o, a, b, front);
      AckOneAlike(o, AckAll(o, a, front), AckAll(o, b, front), last);
    }
  }

  lemma {:induction false} RetransmitAlike(o: Options, a: Send, b: Send, count: nat)
    requires WindowOf(a) == WindowOf(b)
    ensures WindowOf(RetransmitMany(o, a, count)) == WindowOf(RetransmitMany(o, b, count))
    ensures RetransmitMany(o, a, count).recvSize == a.recvSize
  {
    if count > 0 {
      RetransmitAlike(o, a, b, count - 1);
    }
  }

  lemma {:induction false} AckWindow(o: Options, s: Send, ack: Ack, now: nat)
    ensures WindowOf(ReceiveAck(o, s, ack, now)) == WindowOf(AckAll(o, s, ack.sequence))
    ensures ReceiveAck(o, s, ack, now).recvSize == ack.recvBufferSize
  {
  }

  lemma AckOneWindow(o: Options, s: Send, n: int, size: uint32)
    ensures WindowOf(ReceiveAck(o, s, Ack([n], size, 0), 0)) == WindowOf(AckOne(o, s, n))
  {
    var numbers := [n];
    AckWindow(o, s, Ack(numbers, size, 0), 0);
    assert numbers[..0] == [];
  }

  lemma HearCovers(o: Options, actual: Send, model: Send, signal: Signal)
    requires Covers(o, actual, model)
    ensures Covers(o, Hear(o, actual, signal), Hear(o, model, signal))
  {
    match signal
    case Hears(ack, now) =>
      AckWindow(o, actual, ack, now);
      AckWindow(o, model, ack, now);
      AckAllAlike(o, actual, model, ack.sequence);
    case Resends(count) =>
      RetransmitAlike(o, actual, model, count);
      RetransmitAlike(o, model, actual, count);
  }

  // ---------------------------------------------------------------- making it heard

  /** Nothing that was possible is lost. */
  ghost predicate Kept(s: State, t: State) {
    (forall ack :: OnItsWay(s, ack) ==> OnItsWay(t, ack)) && t.rcv.maxSequence >= s.rcv.maxSequence
  }

  lemma KeptIsPossible(c: Config, s: State, t: State, small: bool, signals: seq<Signal>)
    requires Kept(s, t) && AllPossible(c, s, small, signals)
    ensures AllPossible(c, t, small, signals)
  {
  }

  lemma AcceptingKeeps(r: Recv, p: Payload, maxSize: uint32)
    ensures ReceiveUnordered(r, p, maxSize).maxSequence >= r.maxSequence
  {
  }

  /** A number that is not above the highest one taken is received once more and acked. */
  lemma HearNumber(c: Config, s: State, n: int) returns (steps: seq<Step>, t: State)
    requires Live(c, s) && n <= s.rcv.maxSequence
    ensures Path(c, s, steps, t) && Live(c, t) && SameWriter(s, t) && t.closing == s.closing && Kept(s, t)
    ensures WindowOf(t.snd) == WindowOf(AckOne(c.options, s.snd, n))
  {
    if n in s.snd.buffer {
      BufferedIsEntered(c, s, n);
      var worker := AboveAll(s.arrivals.Keys);
      steps, t := AckRound(c, s, n, worker);
      LivePath(c, s, steps, t);
      AcceptingKeeps(s.rcv, s.w.log[n], c.rxBufferSize);
      var size: uint32 :| t.snd == ReceiveAck(c.options, s.snd, Ack([n], size, 0), 0);
      AckOneWindow(c.options, s.snd, n, size);
    } else {
      steps, t := [], s;
      DuplicateIsIdle(c.options, s.snd, n);
    }
  }

  lemma {:induction false} HearNumbers(c: Config, s: State, numbers: seq<int>) returns (steps: seq<Step>, t: State)
    requires Live(c, s) && forall i :: 0 <= i < |numbers| ==> numbers[i] <= s.rcv.maxSequence
    ensures Path(c, s, steps, t) && Live(c, t) && SameWriter(s, t) && t.closing == s.closing && Kept(s, t)
    ensures WindowOf(t.snd) == WindowOf(AckAll(c.options, s.snd, numbers))
    decreases |numbers|
  {
    if numbers == [] {
      steps, t := [], s;
    } else {
      var front, last := numbers[..|numbers| - 1], numbers[|numbers| - 1];
      var first, u := HearNumbers(c, s, front);
      var rest;
      rest, t := HearNumber(c, u, last);
      AckOneAlike(c.options, u.snd, AckAll(c.options, s.snd, front), last);
      PathJoins(c, s, first, u, rest, t);
      steps := first + rest;
    }
  }

  lemma StoringKeeps(s: State, worker: nat)
    requires worker in s.arrivals && s.arrivals[worker].Sized?
    ensures Kept(s, StoreArrival(s, worker))
  {
    var t := StoreArrival(s, worker);
    forall ack | OnItsWay(s, ack) ensures OnItsWay(t, ack) {
      if other :| other in s.arrivals && AboutToSend(s.arrivals[other], ack) {
        assert other == worker || (other in t.arrivals && AboutToSend(t.arrivals[other], ack));
      }
    }
  }

  lemma ReportingKeeps(s: State)
    requires s.phase.Reported?
    ensures Kept(s, StoreReport(s))
  {
  }

  /** An ack on its way is sent. */
  lemma SendAck(c: Config, s: State, ack: Ack) returns (steps: seq<Step>, t: State)
    requires Live(c, s) && OnItsWay(s, ack)
    ensures Path(c, s, steps, t) && Live(c, t) && t.w == s.w && t.closing == s.closing && Kept(s, t)
    ensures t.snd == s.snd && ack in t.acks
  {
    if ack in s.acks {
      steps, t := [], s;
    } else if worker :| worker in s.arrivals && AboutToSend(s.arrivals[worker], ack) {
      t := StoreArrival(s, worker);
      LiveStep(c, s, StoreAck(worker));
      StoringKeeps(s, worker);
      steps := OneStep(c, s, StoreAck(worker));
    } else {
      t := StoreReport(s);
      LiveStep(c, s, StoreEmptyAck);
      ReportingKeeps(s);
      steps := OneStep(c, s, StoreEmptyAck);
    }
  }

  lemma SameIsKept(s: State, t: State)
    requires t.acks == s.acks && t.arrivals == s.arrivals && t.phase == s.phase && t.rcv == s.rcv
    ensures Kept(s, t)
  {
  }

  lemma HearAck(c: Config, s: State, ack: Ack, now: nat) returns (steps: seq<Step>, t: State)
    requires Live(c, s) && OnItsWay(s, ack)
    ensures Path(c, s, steps, t) && Live(c, t) && t.w == s.w && t.closing == s.closing && Kept(s, t)
    ensures t.snd == ReceiveAck(c.options, s.snd, ack, now)
  {
    var first, u := SendAck(c, s, ack);
    t := u.(snd := ReceiveAck(c.options, u.snd, ack, now));
    LiveStep(c, u, AckArrives(ack, now));
    SameIsKept(u, t);
    PathSnoc(c, s, first, u, AckArrives(ack, now));
    steps := first + [AckArrives(ack, now)];
  }

  /** Whatever is possible can be made to happen, with the same effect on the window. */
  lemma HearSignal(c: Config, s: State, model: Send, signal: Signal) returns (steps: seq<Step>, t: State)
    requires Live(c, s) && Covers(c.options, s.snd, model) && Possible(c, s, false, signal)
    ensures Path(c, s, steps, t) && Live(c, t) && SameWriter(s, t) && t.closing == s.closing && Kept(s, t)
    ensures Covers(c.options, t.snd, Hear(c.options, model, signal))
  {
    if signal.Resends? {
      t := s.(snd := RetransmitMany(c.options, s.snd, signal.count));
      steps := OneStep(c, s, Retransmit(signal.count));
      LiveStep(c, s, Retransmit(signal.count));
      SameIsKept(s, t);
      HearCovers(c.options, s.snd, model, signal);
    } else if OnItsWay(s, signal.ack) {
      steps, t := HearAck(c, s, signal.ack, signal.now);
      HearCovers(c.options, s.snd, model, signal);
    } else {
      steps, t := HearNumbers(c, s, signal.ack.sequence);
      AckAllAlike(c.options, s.snd, model, signal.ack.sequence);
      AckWindow(c.options, model, signal.ack, signal.now);
    }
  }

  lemma {:induction false} HearSignals(c: Config, s: State, model: Send, signals: seq<Signal>) returns (steps: seq<Step>, t: State)
    requires Live(c, s) && Covers(c.options, s.snd, model) && AllPossible(c, s, false, signals)
    ensures Path(c, s, steps, t) && Live(c, t) && SameWriter(s, t) && t.closing == s.closing
    ensures Covers(c.options, t.snd, HearAll(c.options, model, signals))
    decreases |signals|
  {
    if signals == [] {
      steps, t := [], s;
    } else {
      var first, u := HearSignal(c, s, model, signals[0]);
      assert AllPossible(c, s, false, signals[1..]);
      KeptIsPossible(c, s, u, false, signals[1..]);
      var rest;
      rest, t := HearSignals(c, u, Hear(c.options, model, signals[0]), signals[1..]);
      PathJoins(c, s, first, u, rest, t);
      steps := first + rest;
    }
  }

  lemma CoveredIsOpen(c: Config, s: State, model: Send)
    requires Covers(c.options, s.snd, model) && Budget(c.options, model, s.closing) > 0
    ensures IsOpen(c, s)
  {
  }

  /** If something the sender can still hear opens the buffer, some schedule finishes. */
  lemma CanFinishIfItOpens(c: Config, s: State) returns (steps: seq<Step>, t: State)
    requires Alive(c, s) && CanOpen(c, s, false)
    ensures Path(c, s, steps, t) && Finished(s, t)
  {
    AliveIsLive(c, s);
    var signals :| Opening(c, s, false, signals);
    var first, u := HearSignals(c, s, s.snd, signals);
    CoveredIsOpen(c, u, HearAll(c.options, s.snd, signals));
    var rest;
    rest, t := LiveFinishes(c, u);
    PathJoins(c, s, first, u, rest, t);
    steps := first + rest;
  }
}
