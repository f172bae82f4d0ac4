/**
 When payloads are retransmitted: every run of the send buffer's calls with a clock that does not
 run backwards. What was sent when, what is acked, what the retransmitter holds and when the
 buffer was last looked through is read off the calls themselves.
 */
module RetransmitTiming {
  import opened Bytes
  import opened Messages
  import opened SendBuffer

  datatype Call =
    | Buffer(p: Payload)
    | MarkSent(n: int, now: nat)              // the writer's callback, or the retransmitter
    | Acknowledge(ack: Ack, now: nat)
    | Retransmit(now: nat)
    | Dequeued(n: int)                        // the retransmitter is done with the payload

  datatype State = State(snd: Send, times: Timing, clock: int)

  const NEW_TIMING := Timing(map[], map[], 0)

  predicate Enabled(s: State, call: Call) {
    match call
    case Buffer(p) => p.sequence as int !in s.times.queued
    case MarkSent(n, now) => n in s.times.queued && now >= s.clock
    case Acknowledge(ack, now) => now >= s.clock
    case Retransmit(now) => now >= s.clock
    case Dequeued(n) => n in s.times.queued && s.times.queued[n] % 2 == 1
  }

  function Apply(o: Options, s: State, call: Call): State
    requires Enabled(s, call)
  {
    match call
    case Buffer(p) => s.(snd := Buffered(s.snd, p), times := Entering(s.times, p.sequence))
    case MarkSent(n, now) => s.(times := SentAt(s.times, n, now), clock := now)
    case Acknowledge(ack, now) => State(ReceiveAck(o, s.snd, ack, now), MarkedAcked(s.times, s.snd.buffer, ack.sequence), now)
    case Retransmit(now) => State(RetransmitMany(o, s.snd, |Chosen(s.snd, s.times, now)|), LookedThrough(s.snd, s.times, now), now)
    case Dequeued(n) => s.(times := GivenBack(s.times, n))
  }

  ghost predicate IsRun(o: Options, states: seq<State>, calls: seq<Call>) {
    && |states| == |calls| + 1 && states[0] == State(NewSend(o), NEW_TIMING, states[0].clock)
    && forall i :: 0 <= i < |calls| ==> Enabled(states[i], calls[i]) && states[i + 1] == Apply(o, states[i], calls[i])
  }

  // ---------------------------------------------------------------- what the calls say

  predicate Buffers(call: Call, n: int) {
    call.Buffer? && call.p.sequence == n
  }

  /** Buffered, and no ack has listed it since. */
  predicate Unacked(calls: seq<Call>, i: nat, n: int)
    requires i <= |calls|
  {
    i > 0 && (Buffers(calls[i - 1], n) || (Unacked(calls, i - 1, n) && !(calls[i - 1].Acknowledge? && n in calls[i - 1].ack.sequence)))
  }

  ghost predicate AnyUnacked(calls: seq<Call>, i: nat)
    requires i <= |calls|
  {
    exists n :: Unacked(calls, i, n)
  }

  /** When it was last sent, if ever since it was buffered. */
  function LastSent(calls: seq<Call>, i: nat, n: int): Option<int>
    requires i <= |calls|
  {
    if i == 0 || Buffers(calls[i - 1], n) then None
    else if calls[i - 1].MarkSent? && calls[i - 1].n == n then Some(calls[i - 1].now)
    else LastSent(calls, i - 1, n)
  }

  /** Call `i` looks through the buffer: there is something unacked, and the last look is more than 64 ms ago. */
  ghost predicate Looks(calls: seq<Call>, i: nat)
    requires i < |calls|
    decreases i, 1
  {
    calls[i].Retransmit? && AnyUnacked(calls, i) && calls[i].now - LastLook(calls, i) > 64
  }

  ghost function LastLook(calls: seq<Call>, i: nat): int
    requires i <= |calls|
    decreases i, 0
  {
    if i == 0 then 0 else if Looks(calls, i - 1) then calls[i - 1].now else LastLook(calls, i - 1)
  }

  /** The retransmitter has it: it was due at some look, and was not given back since. */
  ghost predicate Handed(states: seq<State>, calls: seq<Call>, i: nat, n: int)
    requires |states| == |calls| + 1 && i <= |calls|
    decreases i, 0
  {
    && i > 0 && !Buffers(calls[i - 1], n) && calls[i - 1] != Dequeued(n)
    && (Handed(states, calls, i - 1, n) || Due(states, calls, i - 1, n))
  }

  /** Call `i` has to hand it over: unacked, not handed over already, and sent at least the threshold ago. */
  ghost predicate Due(states: seq<State>, calls: seq<Call>, i: nat, n: int)
    requires |states| == |calls| + 1 && i < |calls|
    decreases i, 1
  {
    && Looks(calls, i) && Unacked(calls, i, n) && !Handed(states, calls, i, n)
    && LastSent(calls, i, n).Some? && ToU32(calls[i].now - LastSent(calls, i, n).value) >= states[i].snd.retxThreshold
  }

  // ---------------------------------------------------------------- the buffer agrees

  /** What the state should say about number `n`. */
  predicate AgreesOn(s: State, n: int, unacked: bool, sent: Option<int>, handed: bool) {
    && (n in s.snd.buffer <==> unacked)
    && (n in s.snd.buffer || n in s.times.age || handed ==> n in s.times.queued)
    && (n in s.times.age <==> sent.Some?) && (sent.Some? ==> s.times.age[n] == sent.value <= s.clock)
    && (n in s.times.queued ==> s.times.queued[n] == (if handed then 1 else 0) + if unacked then 0 else 2)
  }

  ghost predicate Agrees(o: Options, states: seq<State>, calls: seq<Call>, i: nat)
    requires |states| == |calls| + 1 && i <= |calls|
  {
    && Accounted(o, states[i].snd) && states[i].times.lastRetransmit == LastLook(calls, i)
    && forall n :: AgreesOn(states[i], n, Unacked(calls, i, n), LastSent(calls, i, n), Handed(states, calls, i, n))
  }

  lemma NonemptyMeansUnacked(o: Options, states: seq<State>, calls: seq<Call>, i: nat)
    requires |states| == |calls| + 1 && i <= |calls| && Agrees(o, states, calls, i)
    ensures states[i].snd.buffer != map[] <==> AnyUnacked(calls, i)
  {
    var buffer := states[i].snd.buffer;
    assert forall n :: n in buffer <==> Unacked(calls, i, n) by {
      forall n ensures n in buffer <==> Unacked(calls, i, n) {
        assert AgreesOn(states[i], n, Unacked(calls, i, n), LastSent(calls, i, n), Handed(states, calls, i, n));
      }
    }
    HasKey(buffer);
    if buffer != map[] {
      var n :| n in buffer;
      assert Unacked(calls, i, n);
    }
    if n :| Unacked(calls, i, n) {
      assert n in buffer && buffer != map[];
    }
  }

  lemma HasKey(m: map<int, Payload>)
    ensures m != map[] <==> exists n :: n in m
  {
    HasMember(m.Keys);
    assert m.Keys == {} ==> m == map[];
  }

  /** What is handed over is what the calls say is due. */
  lemma {:induction false} ChosenIsDue(o: Options, states: seq<State>, calls: seq<Call>, i: nat, n: int)
    requires |states| == |calls| + 1 && i < |calls| && calls[i].Retransmit? && Agrees(o, states, calls, i)
    ensures LooksThrough(states[i].snd, states[i].times, calls[i].now) <==> Looks(calls, i)
    ensures n in Chosen(states[i].snd, states[i].times, calls[i].now) <==> Due(states, calls, i, n)
  {
    NonemptyMeansUnacked(o, states, calls, i);
    assert AgreesOn(states[i], n, Unacked(calls, i, n), LastSent(calls, i, n), Handed(states, calls, i, n));
  }

  lemma AckRemoves(o: Options, s: Send, ack: Ack, now: nat, n: int)
    requires ValidOptions(o) && Accounted(o, s)
    ensures n in ReceiveAck(o, s, ack, now).buffer <==> n in s.buffer && n !in ack.sequence
  {
    AckKeeps(o, s, ack, now);
  }

  lemma StepAgreesOn(o: Options, s: State, call: Call, n: int, unacked: bool, sent: Option<int>, handed: bool, due: bool)
    requires ValidOptions(o) && Accounted(o, s.snd) && Enabled(s, call) && AgreesOn(s, n, unacked, sent, handed)
    requires due <==> call.Retransmit? && n in Chosen(s.snd, s.times, call.now)
    ensures AgreesOn(Apply(o, s, call), n,
                     Buffers(call, n) || (unacked && !(call.Acknowledge? && n in call.ack.sequence)),
                     if Buffers(call, n) then None else if call.MarkSent? && call.n == n then Some(call.now) else sent,
                     !Buffers(call, n) && call != Dequeued(n) && (handed || due))
  {
    match call
    case Buffer(p) =>
    case MarkSent(_, _) =>
    case Acknowledge(ack, now) => AckRemoves(o, s.snd, ack, now, n);
    case Retransmit(now) => RetransmitKeeps(o, s.snd, |Chosen(s.snd, s.times, now)|);
    case Dequeued(_) =>
  }

  lemma AccountedStep(o: Options, s: State, call: Call)
    requires ValidOptions(o) && Accounted(o, s.snd) && Enabled(s, call)
    requires call.Buffer? ==> call.p.sequence as int !in s.snd.buffer
    ensures Accounted(o, Apply(o, s, call).snd)
  {
    match call
    case Buffer(p) => BufferedKeeps(o, s.snd, p);
    case Acknowledge(ack, now) => AckKeeps(o, s.snd, ack, now);
    case Retransmit(now) => RetransmitKeeps(o, s.snd, |Chosen(s.snd, s.times, now)|);
    case _ =>
  }

  lemma NewIsNotHeld(o: Options, states: seq<State>, calls: seq<Call>, i: nat)
    requires |states| == |calls| + 1 && i < |calls| && Agrees(o, states, calls, i) && Enabled(states[i], calls[i])
    ensures calls[i].Buffer? ==> calls[i].p.sequence as int !in states[i].snd.buffer
  {
    if calls[i].Buffer? {
      var n := calls[i].p.sequence;
      assert AgreesOn(states[i], n, Unacked(calls, i, n), LastSent(calls, i, n), Handed(states, calls, i, n));
    }
  }

  lemma AgreesNext(o: Options, states: seq<State>, calls: seq<Call>, i: nat, n: int)
    requires ValidOptions(o) && IsRun(o, states, calls) && i < |calls| && Agrees(o, states, calls, i)
    ensures AgreesOn(states[i + 1], n, Unacked(calls, i + 1, n), LastSent(calls, i + 1, n), Handed(states, calls, i + 1, n))
  {
    assert AgreesOn(states[i], n, Unacked(calls, i, n), LastSent(calls, i, n), Handed(states, calls, i, n));
    if calls[i].Retransmit? {
      ChosenIsDue(o, states, calls, i, n);
    }
    StepAgreesOn(o, states[i], calls[i], n, Unacked(calls, i, n), LastSent(calls, i, n), Handed(states, calls, i, n), Due(states, calls, i, n));
  }

  lemma {:induction false} LookNext(o: Options, states: seq<State>, calls: seq<Call>, i: nat)
    requires IsRun(o, states, calls) && i < |calls| && Agrees(o, states, calls, i)
    ensures states[i + 1].times.lastRetransmit == LastLook(calls, i + 1)
  {
    if calls[i].Retransmit? {
      ChosenIsDue(o, states, calls, i, 0);
    }
  }

  lemma {:induction false} RunAgrees(o: Options, states: seq<State>, calls: seq<Call>, i: nat)
    requires ValidOptions(o) && IsRun(o, states, calls) && i < |states|
    ensures Agrees(o, states, calls, i)
  {
    if i == 0 {
      NewSendAccounted(o);
    } else {
      RunAgrees(o, states, calls, i - 1);
      NewIsNotHeld(o, states, calls, i - 1);
      AccountedStep(o, states[i - 1], calls[i - 1]);
      LookNext(o, states, calls, i - 1);
      forall n ensures AgreesOn(states[i], n, Unacked(calls, i, n), LastSent(calls, i, n), Handed(states, calls, i, n)) {
        AgreesNext(o, states, calls, i - 1, n);
      }
    }
  }

  // ---------------------------------------------------------------- the theorems

  /**
   In every run a call of retransmit hands over exactly the payloads that are unacked, not with the
   retransmitter already and last sent at least the threshold ago, provided the last look was more
   than 64 ms ago. Ages are compared modulo 2^32 ms, so as they are below 49 days.
   */
  lemma {:induction false} RetransmitsExactly(o: Options, states: seq<State>, calls: seq<Call>, i: nat, n: int)
    requires ValidOptions(o) && IsRun(o, states, calls) && i < |calls| && calls[i].Retransmit?
    ensures n in Chosen(states[i].snd, states[i].times, calls[i].now) <==> Due(states, calls, i, n)
    ensures var sent := LastSent(calls, i, n);
            sent.Some? && calls[i].now - sent.value < TWO32 ==>
              (n in Chosen(states[i].snd, states[i].times, calls[i].now) <==>
                && Looks(calls, i) && Unacked(calls, i, n) && !Handed(states, calls, i, n)
                && calls[i].now - sent.value >= states[i].snd.retxThreshold)
  {
    RunAgrees(o, states, calls, i);
    ChosenIsDue(o, states, calls, i, n);
    var sent := LastSent(calls, i, n);
    assert AgreesOn(states[i], n, Unacked(calls, i, n), sent, Handed(states, calls, i, n));
    if sent.Some? && calls[i].now - sent.value < TWO32 {
      SmallStays(calls[i].now - sent.value);
    }
  }

  lemma {:induction false} LastLookIsLast(o: Options, states: seq<State>, calls: seq<Call>, i: nat, j: nat)
    requires IsRun(o, states, calls) && i < j <= |calls| && Looks(calls, i)
    ensures LastLook(calls, j) >= calls[i].now
    decreases j
  {
    if j > i + 1 {
      LastLookIsLast(o, states, calls, i, j - 1);
    }
  }

  /** Two calls that look through the buffer are more than 64 ms apart, and only those hand anything over. */
  lemma {:induction false} LooksAreApart(o: Options, states: seq<State>, calls: seq<Call>, i: nat, j: nat)
    requires ValidOptions(o) && IsRun(o, states, calls) && i < j < |calls| && calls[i].Retransmit? && calls[j].Retransmit?
    ensures Looks(calls, i) && Looks(calls, j) ==> calls[j].now - calls[i].now > 64
    ensures Chosen(states[i].snd, states[i].times, calls[i].now) != {} ==> Looks(calls, i)
  {
    RunAgrees(o, states, calls, i);
    ChosenIsDue(o, states, calls, i, 0);
    if Looks(calls, i) && Looks(calls, j) {
      LastLookIsLast(o, states, calls, i, j);
    }
  }

  // ---------------------------------------------------------------- the threshold

  /** A measured round trip whose threshold fits 32 bits. */
  predicate Tame(o: Options, s: Send, call: Call) {
    call.Acknowledge? && call.ack.rtt > 0 ==>
      var t := AckAll(o, s, call.ack.sequence);
      Product(Smooth(t.lastRtt, RttSample(call.now, call.ack.rtt)), t.retxScale) + o.retxAddMs < TWO32
  }

  predicate Sampled(calls: seq<Call>, i: nat)
    requires i <= |calls|
  {
    i > 0 && (Sampled(calls, i - 1) || (calls[i - 1].Acknowledge? && calls[i - 1].ack.rtt > 0))
  }

  /** The threshold leaves time for the smoothed round trip and the extra wait; before the first sample it is the configured start. */
  predicate Patient(o: Options, s: Send, sampled: bool) {
    if sampled then s.retxThreshold >= s.lastRtt + o.retxAddMs else s.retxThreshold == o.retxStartMs && s.lastRtt == 0
  }

  lemma {:induction false} AcksKeepThreshold(o: Options, s: Send, numbers: seq<int>)
    ensures AckAll(o, s, numbers).retxThreshold == s.retxThreshold && AckAll(o, s, numbers).lastRtt == s.lastRtt
    decreases |numbers|
  {
    if numbers != [] {
      AcksKeepThreshold(o, s, numbers[..|numbers| - 1]);
    }
  }

  lemma {:induction false} ResendingKeepsThreshold(o: Options, s: Send, count: nat)
    ensures RetransmitMany(o, s, count).retxThreshold == s.retxThreshold && RetransmitMany(o, s, count).lastRtt == s.lastRtt
  {
    if count > 0 {
      ResendingKeepsThreshold(o, s, count - 1);
    }
  }

  lemma ProductGrows(a: real, f: real)
    requires a >= 0.0 && f >= 1.0
    ensures a * f >= a
  {
    NonNegative(a, f - 1.0);
    assert a * f == a + a * (f - 1.0);
  }

  function Product(n: uint16, f: real): int {
    ((n as real) * f).Floor
  }

  lemma ProductIsLonger(n: uint16, f: real)
    requires f >= 1.0
    ensures Product(n, f) >= n
  {
    ProductGrows(n as real, f);
  }

  lemma NoWrap(product: int, add: uint32)
    requires 0 <= product && product + add < TWO32
    ensures ToU32(ToU32(product) + add) == product + add
  {
    SmallStays(product);
    SmallStays(product + add);
  }

  lemma SampleIsPatient(o: Options, s: Send, stamp: uint16, now: nat)
    requires stamp > 0 && s.retxScale >= 1.0
    requires Product(Smooth(s.lastRtt, RttSample(now, stamp)), s.retxScale) + o.retxAddMs < TWO32
    ensures var t := TakeRtt(o, s, stamp, now); t.retxThreshold >= t.lastRtt + o.retxAddMs
  {
    var rtt := Smooth(s.lastRtt, RttSample(now, stamp));
    ProductIsLonger(rtt, s.retxScale);
    NoWrap(Product(rtt, s.retxScale), o.retxAddMs);
    assert Scaled(rtt, s.retxScale) == ToU32(Product(rtt, s.retxScale));
  }

  lemma StepIsPatient(o: Options, s: State, call: Call, sampled: bool)
    requires ValidOptions(o) && Accounted(o, s.snd) && Enabled(s, call) && o.retxScale >= 1.0
    requires Patient(o, s.snd, sampled) && Tame(o, s.snd, call)
    ensures Patient(o, Apply(o, s, call).snd, sampled || (call.Acknowledge? && call.ack.rtt > 0))
  {
    match call
    case Acknowledge(ack, now) =>
      AcksKeepThreshold(o, s.snd, ack.sequence);
      AckAllKeeps(o, s.snd, ack.sequence);
      if ack.rtt > 0 {
        SampleIsPatient(o, AckAll(o, s.snd, ack.sequence).(recvSize := ack.recvBufferSize), ack.rtt, now);
      }
    case Retransmit(now) => ResendingKeepsThreshold(o, s.snd, |Chosen(s.snd, s.times, now)|);
    case _ =>
  }

  lemma {:induction false} RunIsPatient(o: Options, states: seq<State>, calls: seq<Call>, i: nat)
    requires ValidOptions(o) && o.retxScale >= 1.0 && IsRun(o, states, calls) && i < |states|
    requires forall j :: 0 <= j < i ==> Tame(o, states[j].snd, calls[j])
    ensures Patient(o, states[i].snd, Sampled(calls, i))
  {
    if i > 0 {
      RunIsPatient(o, states, calls, i - 1);
      RunAgrees(o, states, calls, i - 1);
      StepIsPatient(o, states[i - 1], calls[i - 1], Sampled(calls, i - 1));
    }
  }

  /** No payload is retransmitted before the smoothed round trip and the extra wait have passed since it was last sent. */
  lemma {:induction false} NeverTooEarly(o: Options, states: seq<State>, calls: seq<Call>, i: nat, n: int)
    requires ValidOptions(o) && o.retxScale >= 1.0 && IsRun(o, states, calls) && i < |calls| && calls[i].Retransmit?
    requires forall j :: 0 <= j < i ==> Tame(o, states[j].snd, calls[j])
    requires n in Chosen(states[i].snd, states[i].times, calls[i].now)
    ensures LastSent(calls, i, n).Some?
    ensures var waited := calls[i].now - LastSent(calls, i, n).value;
            waited >= if Sampled(calls, i) then states[i].snd.lastRtt + o.retxAddMs else o.retxStartMs
  {
    RunIsPatient(o, states, calls, i);
    RetransmitsExactly(o, states, calls, i, n);
  }
}
