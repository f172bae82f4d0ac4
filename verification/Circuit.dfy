/**
 One direction of a circuit as a state machine over its atomic steps: a writer cutting
 messages into chunks, other goroutines adding control payloads, the send loop with its
 window, a network that loses, repeats, delays and reorders payloads and acks, the reorder
 tree, the bounded queue and the txer.

 Sequence numbers index `log`, the payloads in the order their numbers were taken. The
 network is the set of numbers ever put on the wire and the set of acks ever sent: a
 delivery may pick any of them, any number of times, or never. A retransmission puts a
 number on the wire that is already there, so it needs no step of its own here.
 */
module Circuit {
  import opened Bytes
  import opened Messages
  import opened ReceiveBuffer
  import opened Segmentation
  import opened SendBuffer
  import opened Weights

  datatype Config = Config(endpoint: Endpoint, options: Options, rxBufferSize: uint32, txQueueSize: nat, maxPayload: nat)

  predicate ValidConfig(c: Config) {
    ValidOptions(c.options) && c.endpoint.mtu <= c.maxPayload
  }

  /** The most the receiver can ever be made to hold. */
  function Ceiling(c: Config): nat {
    c.rxBufferSize + c.options.maxSize + 4 * c.maxPayload
  }

  predicate Fits32(c: Config) {
    Ceiling(c) < TWO32
  }

  /** The sender's byte counter cannot wrap. */
  predicate SenderFits32(c: Config) {
    c.options.maxSize + 2 * c.maxPayload < TWO32
  }

  /** Where the txer stands. */
  datatype Phase =
    | Fetch                                      // about to call NextPayload
    | Primed                                     // in NextPayload, behind its own queueNext
    | Holding(p: Payload)                        // payload in hand
    | Handled(p: Payload, released: nat)         // written or buffered, size not yet adjusted
    | Checking(size: uint32)                     // size adjusted, advertised size not yet checked
    | Reporting                                  // decided to send an empty ack, size not yet read
    | Reported(read: uint32)                     // size read, not yet stored as advertised
    | Halted(hand: nat)                          // tx returned, `hand` bytes never released

  /** A call of PayloadReceived behind ReceiveUnordered, of any ingest worker. */
  datatype Arrival =
    | Taken(number: int, rtt: uint16)                   // accepted, size not yet read
    | Sized(number: int, rtt: uint16, read: uint32)     // size read, not yet stored as advertised

  /** The writing side: what took a number, and what became of it. */
  datatype Writer = Writer(
    log: seq<Payload>,
    written: seq<Delivery>,         // messages of writes that did not fail
    writing: Option<Writing>,       // the write in progress, while chunks are left
    current: Option<nat>,           // the chunk the writer is offering
    offered: set<nat>,              // numbers waiting to enter the send buffer
    entered: set<nat>,              // numbers that entered it
    burned: set<nat>)               // numbers that never will

  datatype State = State(
    w: Writer,
    wire: set<nat>,                 // numbers put on the data plane
    acks: set<Ack>,
    snd: Send,
    budget: nat,                    // payloads the send loop may still admit before its next check
    closing: bool,                  // closeWhenEmpty
    rcv: Recv,
    arrivals: map<nat, Arrival>,    // by worker
    phase: Phase,
    taken: nat,                     // payloads taken off the queue
    consumer: Consumer,
    shut: bool,                     // closeNotify closed
    advertised: uint32)             // lastBufferSizeSent

  function Init(c: Config): State {
    State(Writer([], [], None, None, {}, {}, {}), {}, {}, NewSend(c.options), 0, false,
          NewRecv(c.txQueueSize), map[], Fetch, 0, FRESH, false, 0)
  }

  // ---------------------------------------------------------------- steps of the writing side

  function BeginWriting(w: Writer, m: Write): Writer {
    w.(writing := Some(Begin(m)), written := w.written + [DataMessage(m.buffer, m.headers)])
  }

  function TakeChunk(e: Endpoint, w: Writer, p: Payload, next: Writing): Writer {
    w.(log := w.log + [p], offered := w.offered + {|w.log|}, current := Some(|w.log|),
       writing := if Pending(e, next) then Some(next) else None)
  }

  function AllButLast(s: seq<Delivery>): seq<Delivery> {
    if s == [] then [] else s[..|s| - 1]
  }

  /** The failing write is over, and its bytes were not accepted. */
  function Abandon(w: Writer): Writer {
    w.(writing := None, current := None, written := AllButLast(w.written))
  }

  /** Header encoding failed, or the chunk has no room: the number is gone. */
  function TakeFailing(w: Writer, p: Payload): Writer {
    Abandon(w.(log := w.log + [p], burned := w.burned + {|w.log|}))
  }

  /** Another goroutine takes a number for a control payload. */
  function TakeControl(w: Writer, p: Payload): Writer {
    w.(log := w.log + [p], offered := w.offered + {|w.log|})
  }

  function EnterBuffer(w: Writer, n: nat): Writer {
    w.(offered := w.offered - {n}, entered := w.entered + {n})
  }

  function Forwarded(w: Writer, n: nat): Writer {
    w.(current := if w.current == Some(n) then None else w.current)
  }

  /** A deadline or a closed buffer: the payload never enters. */
  function BurnNumber(w: Writer, n: nat): Writer {
    var v := w.(offered := w.offered - {n}, burned := w.burned + {n});
    if w.current == Some(n) then Abandon(v) else v
  }

  // ---------------------------------------------------------------- steps of the receiving side

  function Dequeue(s: State): State
    requires s.rcv.queue != []
  {
    s.(rcv := s.rcv.(queue := s.rcv.queue[1..]), phase := Holding(s.rcv.queue[0]), taken := s.taken + 1)
  }

  /** ReceiveUnordered; unless the payload is refused, the worker goes on to acknowledge it. */
  function Arrive(c: Config, s: State, p: Payload, worker: nat, rtt: uint16): State {
    var after := ReceiveUnordered(s.rcv, p, c.rxBufferSize);
    if Refuses(s.rcv, p.sequence, c.rxBufferSize) then s.(rcv := after)
    else s.(rcv := after, arrivals := s.arrivals[worker := Taken(p.sequence, rtt)])
  }

  function ReadArrival(s: State, worker: nat): State
    requires worker in s.arrivals && s.arrivals[worker].Taken?
  {
    var a := s.arrivals[worker];
    s.(arrivals := s.arrivals[worker := Sized(a.number, a.rtt, s.rcv.size)])
  }

  /** Stores the size that was read as the one advertised last, and sends the ack. */
  function StoreArrival(s: State, worker: nat): State
    requires worker in s.arrivals && s.arrivals[worker].Sized?
  {
    var a := s.arrivals[worker];
    s.(arrivals := s.arrivals - {worker}, acks := s.acks + {Ack([a.number], a.read, a.rtt)}, advertised := a.read)
  }

  /** The payload in hand goes through the assembly; a complete message goes to the peer, which may refuse it. */
  function HandleHand(s: State, accepted: bool): State
    requires s.phase.Holding?
  {
    var p := s.phase.p;
    var after := Consume(s.consumer, p);
    if after.stopped then s.(consumer := after, phase := Halted(|p.data|))
    else if |after.out| > |s.consumer.out| && !accepted then s.(consumer := s.consumer.(stopped := true), phase := Halted(|p.data|))
    else s.(consumer := after, phase := Handled(p, TxStep(s.consumer.assembly, p).released))
  }

  function ReleaseHand(s: State): State
    requires s.phase.Handled?
  {
    var size := ReleaseSize(s.rcv.size, s.phase.released);
    s.(rcv := s.rcv.(size := size), phase := Checking(size))
  }

  function CheckAdvertised(s: State): State
    requires s.phase.Checking?
  {
    if s.advertised > 10000 && s.advertised / 2 > s.phase.size then s.(phase := Reporting) else s.(phase := Fetch)
  }

  /** The store of SendEmptyAck. */
  function StoreReport(s: State): State
    requires s.phase.Reported?
  {
    s.(phase := Fetch, acks := s.acks + {Ack([], s.phase.read, 0)}, advertised := s.phase.read)
  }

  // ---------------------------------------------------------------- steps of the send loop

  function AdmitNext(s: State, n: nat): State
    requires n < |s.w.log| && s.budget > 0
  {
    s.(w := EnterBuffer(s.w, n), snd := Buffered(s.snd, s.w.log[n]), budget := s.budget - 1)
  }

  function PutOnWire(s: State, n: nat): State {
    s.(w := Forwarded(s.w, n), wire := s.wire + {n})
  }

  // ---------------------------------------------------------------- all steps

  datatype Step =
    | BeginWrite(m: Write)
    | CutOne(p: Payload, next: Writing)
    | CutFails(p: Payload)
    | Control(p: Payload)
    | EndCircuit(p: Payload)
    | Enter(n: nat)
    | Forward(n: nat)
    | Burn(n: nat)
    | Check
    | AckArrives(ack: Ack, now: nat)
    | Retransmit(count: nat)
    | CloseWhenEmpty
    | Receive(n: nat, worker: nat, rtt: uint16)
    | ReadSize(worker: nat)
    | StoreAck(worker: nat)
    | FetchQueued
    | Prime
    | FetchPrimed
    | FetchNil
    | CloseNotify
    | Handle(accepted: bool)
    | Release
    | CheckSize
    | ReadReport
    | StoreEmptyAck

  predicate MayCut(w: Writer) {
    w.writing.Some? && w.current.None? && |w.log| < TWO31 && ValidWriting(w.writing.value)
  }

  predicate MayTake(w: Writer, p: Payload) {
    |w.log| < TWO31 && p.sequence == |w.log|
  }

  predicate Enabled(c: Config, s: State, step: Step) {
    match step
    case BeginWrite(m) =>
      s.w.writing.None? && s.w.current.None? && ValidWrite(m) && Pending(c.endpoint, Begin(m))
      && (c.endpoint.mtu == 0 ==> |m.buffer| <= c.maxPayload)
    case CutOne(p, next) => MayCut(s.w) && NextPayload(c.endpoint, s.w.writing.value, |s.w.log|) == Cut(p, next)
    case CutFails(p) =>
      MayCut(s.w) && !NextPayload(c.endpoint, s.w.writing.value, |s.w.log|).Cut? && p.data == [] && MayTake(s.w, p)
    case Control(p) => MayTake(s.w, p) && IsControl(p)
    case EndCircuit(p) => MayTake(s.w, p) && IsControl(p) && p.flags.circuitEnd
    case Enter(n) => n in s.w.offered && s.budget > 0 && n < |s.w.log|
    case Forward(n) => n in s.w.entered
    case Burn(n) => n in s.w.offered
    case AckArrives(ack, now) => ack in s.acks
    case Receive(n, worker, rtt) => n in s.wire && n < |s.w.log| && worker !in s.arrivals
    case ReadSize(worker) => worker in s.arrivals && s.arrivals[worker].Taken?
    case StoreAck(worker) => worker in s.arrivals && s.arrivals[worker].Sized?
    case FetchQueued => s.phase.Fetch? && s.rcv.queue != []
    case Prime => s.phase.Fetch? && s.rcv.queue == []
    case FetchPrimed => s.phase.Primed? && s.rcv.queue != []
    case FetchNil => s.phase.Primed? && s.rcv.queue == [] && s.shut
    case Handle(accepted) => s.phase.Holding?
    case Release => s.phase.Handled?
    case CheckSize => s.phase.Checking?
    case ReadReport => s.phase.Reporting?
    case StoreEmptyAck => s.phase.Reported?
    case _ => true   // the send loop's own events and the two close signals
  }

  function Apply(c: Config, s: State, step: Step): State
    requires Enabled(c, s, step)
  {
    match step
    case BeginWrite(m) => s.(w := BeginWriting(s.w, m))
    case CutOne(p, next) => s.(w := TakeChunk(c.endpoint, s.w, p, next))
    case CutFails(p) => s.(w := TakeFailing(s.w, p))
    case Control(p) => s.(w := TakeControl(s.w, p))
    case EndCircuit(p) => s.(w := s.w.(log := s.w.log + [p]), wire := s.wire + {|s.w.log|})
    case Enter(n) => AdmitNext(s, n)
    case Forward(n) => PutOnWire(s, n)
    case Burn(n) => s.(w := BurnNumber(s.w, n))
    case Check => s.(budget := Budget(c.options, s.snd, s.closing))
    case AckArrives(ack, now) => s.(snd := ReceiveAck(c.options, s.snd, ack, now))
    case Retransmit(count) => s.(snd := RetransmitMany(c.options, s.snd, count))
    case CloseWhenEmpty => s.(closing := true)
    case Receive(n, worker, rtt) => Arrive(c, s, s.w.log[n], worker, rtt)
    case ReadSize(worker) => ReadArrival(s, worker)
    case StoreAck(worker) => StoreArrival(s, worker)
    case FetchQueued => Dequeue(s)
    case Prime => s.(rcv := QueueNext(s.rcv), phase := Primed)
    case FetchPrimed => Dequeue(s)
    case FetchNil => s.(phase := Halted(0))
    case CloseNotify => s.(shut := true)
    case Handle(accepted) => HandleHand(s, accepted)
    case Release => ReleaseHand(s)
    case CheckSize => CheckAdvertised(s)
    case ReadReport => s.(phase := Reported(s.rcv.size))
    case StoreEmptyAck => StoreReport(s)
  }

  /** Any run from the initial state. */
  ghost predicate IsRun(c: Config, states: seq<State>, steps: seq<Step>) {
    && |states| == |steps| + 1 && states[0] == Init(c)
    && forall i :: 0 <= i < |steps| ==> Enabled(c, states[i], steps[i]) && states[i + 1] == Apply(c, states[i], steps[i])
  }

  // ---------------------------------------------------------------- invariants

  /** Every number has at most one fate, and its payload carries it. */
  ghost predicate Numbered(c: Config, w: Writer, wire: set<nat>) {
    && |w.log| <= TWO31
    && (forall n :: n in w.offered || n in w.entered || n in w.burned || n in wire ==> n < |w.log|)
    && w.offered !! w.entered && w.offered !! w.burned && w.entered !! w.burned
    && wire !! w.offered && wire !! w.burned
    && (forall i :: 0 <= i < |w.log| ==> w.log[i].sequence == i && |w.log[i].data| <= c.maxPayload)
    && (forall n :: n in wire && n !in w.entered ==> w.log[n].data == [])
    && (forall n :: n in w.offered ==> w.log[n].data == [] || w.current == Some(n))
    && (w.current.Some? ==> (w.current.value in w.offered || w.current.value in w.entered) && w.current.value !in wire)
    && (w.writing.Some? ==> ValidWriting(w.writing.value) && (c.endpoint.mtu == 0 ==> |w.writing.value.rest| <= c.maxPayload))
  }

  /** The send buffer holds log entries only, and its counters are right. */
  ghost predicate Sending(c: Config, log: seq<Payload>, entered: set<nat>, snd: Send) {
    && Accounted(c.options, snd)
    && (forall n :: n in snd.buffer ==> 0 <= n < |log| && n in entered && snd.buffer[n] == log[n])
  }

  /** Outstanding bytes stay bounded until the buffer is told to close. */
  ghost predicate Windowed(c: Config, closing: bool, snd: Send, budget: nat) {
    SenderFits32(c) && !closing ==> Bounded(c.options, snd, budget, c.maxPayload)
  }

  /** The tree and the queue hold the log, in order, and only what was on the wire. */
  ghost predicate Receiving(log: seq<Payload>, wire: set<nat>, r: Recv, taken: nat) {
    && Ordered(r) && taken <= r.sequence + 1 <= |log|
    && r.queue == log[taken..r.sequence + 1]
    && (forall n :: n in r.tree ==> 0 <= n < |log| && n in wire && r.tree[n] == log[n])
    && (forall n: nat :: n <= r.sequence ==> n in wire)
    && (r.maxSequence < |log| || r.maxSequence == 0)
  }

  function HandBytes(phase: Phase): nat {
    match phase
    case Holding(p) => |p.data|
    case Handled(p, _) => |p.data|
    case Halted(hand) => hand
    case _ => 0
  }

  /** Receive-side bytes: tree, queue and the txer's hands. */
  ghost function Occupied(r: Recv, phase: Phase): nat {
    Held(r) + HandBytes(phase)
  }

  ghost predicate Conserved(r: Recv, phase: Phase) {
    r.size == ToU32(Occupied(r, phase))
  }

  /** Numbers the txer has fully gone through. */
  function Processed(phase: Phase, taken: nat): int {
    if phase.Holding? then taken - 1 else taken
  }

  /** What the txer did is what replaying the log does. */
  ghost predicate Replaying(log: seq<Payload>, phase: Phase, taken: nat, consumer: Consumer) {
    && 0 <= Processed(phase, taken) <= taken <= |log|
    && (phase.Holding? ==> phase.p == log[taken - 1])
    && (phase.Handled? ==> taken >= 1 && phase.released == |phase.p.data|)
    && (phase.Halted? && taken == 0 ==> phase.hand == 0)
    && (!phase.Halted? ==> consumer == Replay(log[..Processed(phase, taken)]) && !consumer.stopped)
    && (phase.Halted? ==> exists k: nat :: k <= taken && consumer.out == Replay(log[..k]).out)
  }

  ghost predicate AckSound(acks: set<Ack>, r: Recv) {
    forall ack, n :: ack in acks && n in ack.sequence ==> Accepted(r, n)
  }

  ghost predicate ArrivalSound(arrivals: map<nat, Arrival>, r: Recv) {
    forall worker :: worker in arrivals ==> Accepted(r, arrivals[worker].number)
  }

  /** Nothing that entered the send buffer is ever in neither place. */
  ghost predicate Lossless(entered: set<nat>, buffer: map<int, Payload>, r: Recv) {
    forall n :: n in entered ==> n in buffer || Accepted(r, n)
  }

  ghost predicate Unburned(burned: set<nat>, k: nat) {
    forall n :: n in burned ==> n >= k
  }

  /** The written messages that may be out once the first `k` numbers are. */
  function Limit(w: Writer, k: nat): seq<Delivery> {
    if w.writing.Some? || (w.current.Some? && k <= w.current.value) then AllButLast(w.written) else w.written
  }

  ghost predicate PrefixedAt(w: Writer, k: nat)
    requires k <= |w.log|
  {
    DataOf(Replay(w.log[..k]).out) <= Limit(w, k)
  }

  ghost predicate Prefixed(w: Writer) {
    forall k: nat :: k <= |w.log| && Unburned(w.burned, k) ==> PrefixedAt(w, k)
  }

  /** The txer gives back all bytes of payload `k`. */
  ghost predicate FullRelease(log: seq<Payload>, k: nat)
    requires k < |log|
  {
    Replay(log[..k]).stopped || TxStep(Replay(log[..k]).assembly, log[k]).released == |log[k].data|
  }

  ghost predicate Releasing(log: seq<Payload>, burned: set<nat>) {
    forall k: nat :: k < |log| && Unburned(burned, k + 1) ==> FullRelease(log, k)
  }

  /** As long as no number was lost, replaying the whole log reproduces the writer. */
  ghost predicate Mirrored(c: Config, w: Writer) {
    w.burned == {} && !Replay(w.log).stopped ==> Mirrors(c.endpoint, w, Replay(w.log))
  }

  ghost predicate Mirrors(e: Endpoint, w: Writer, r: Consumer) {
    if w.writing.Some? then
      && w.written != []
      && var last := w.written[|w.written| - 1];
      && last == DataMessage(last.data, w.writing.value.headers)
      && Pending(e, w.writing.value)
      && Tracks(e, r.assembly, w.writing.value, last.data)
      && DataOf(r.out) == AllButLast(w.written)
    else
      r.assembly.Idle? && DataOf(r.out) == w.written
  }

  /** Numbers up to the highest accepted one that are still on their way. */
  ghost function Missing(w: Writer, r: Recv): map<int, Payload> {
    map n: nat | n in w.entered + w.offered && n < |w.log| && n <= r.maxSequence && !Accepted(r, n) :: w.log[n]
  }

  ghost predicate Capped(c: Config, closing: bool, w: Writer, r: Recv, phase: Phase) {
    Fits32(c) && !closing ==> Occupied(r, phase) + Total(Missing(w, r)) <= Ceiling(c)
  }

  /** Behind its own queueNext the consumer only waits when there is nothing in order to wait for. */
  ghost predicate Ready(c: Config, r: Recv, phase: Phase) {
    && r.capacity == c.txQueueSize
    && (phase.Primed? && r.queue == [] && c.txQueueSize >= 1 ==> r.sequence + 1 !in r.tree)
  }

  ghost predicate SenderInv(c: Config, s: State) {
    && ValidConfig(c)
    && Numbered(c, s.w, s.wire)
    && Sending(c, s.w.log, s.w.entered, s.snd)
    && Windowed(c, s.closing, s.snd, s.budget)
  }

  ghost predicate StreamInv(c: Config, w: Writer) {
    Prefixed(w) && Releasing(w.log, w.burned) && Mirrored(c, w)
  }

  ghost predicate ReceiverInv(c: Config, s: State) {
    && Receiving(s.w.log, s.wire, s.rcv, s.taken)
    && Conserved(s.rcv, s.phase)
    && Replaying(s.w.log, s.phase, s.taken, s.consumer)
    && Ready(c, s.rcv, s.phase)
  }

  ghost predicate CrossInv(c: Config, s: State) {
    && AckSound(s.acks, s.rcv)
    && ArrivalSound(s.arrivals, s.rcv)
    && Lossless(s.w.entered, s.snd.buffer, s.rcv)
    && Capped(c, s.closing, s.w, s.rcv, s.phase)
  }

  ghost predicate Core(c: Config, s: State) {
    SenderInv(c, s) && ReceiverInv(c, s) && CrossInv(c, s)
  }

  ghost predicate Inv(c: Config, s: State) {
    Core(c, s) && StreamInv(c, s.w)
  }
}
