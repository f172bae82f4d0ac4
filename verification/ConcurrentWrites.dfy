/**
 Several Write calls at once. Nothing keeps their chunks apart: each pass of each call takes the
 next number. A chunk carries no sign of the message it belongs to, so the txer puts together
 whatever chunk-flagged payloads follow each other.
 */
module ConcurrentWrites {
  import opened Bytes
  import opened Messages
  import opened Segmentation
  import opened Varint
  import WritePath

  const CONTROL := -1

  /** What took each number, and the calls still under way. */
  datatype State = State(
    log: seq<Payload>,
    owner: seq<int>,                  // the call that took the number, or CONTROL
    open: map<nat, Writing>,          // calls with chunks left
    messages: map<nat, Delivery>,     // what each call writes
    done: seq<Delivery>)              // the messages whose last chunk took its number, in that order

  const INIT := State([], [], map[], map[], [])

  datatype Step =
    | Start(a: nat, m: Write)
    | CutBy(a: nat, p: Payload, next: Writing)
    | Control(p: Payload)

  predicate Enabled(e: Endpoint, s: State, step: Step) {
    match step
    case Start(a, m) => a !in s.messages && ValidWrite(m) && Pending(e, Begin(m))
    case CutBy(a, p, next) =>
      && a in s.open && a in s.messages && |s.log| < TWO31 && ValidWriting(s.open[a])
      && NextPayload(e, s.open[a], |s.log|) == Cut(p, next)
    case Control(p) => IsControl(p) && !Stops(p)
  }

  /** The state with one more call under way. */
  function StartedCall(s: State, a: nat, m: Write): State {
    s.(open := s.open[a := Begin(m)], messages := s.messages[a := DataMessage(m.buffer, m.headers)])
  }

  function Apply(e: Endpoint, s: State, step: Step): State
    requires Enabled(e, s, step)
  {
    match step
    case Start(a, m) => StartedCall(s, a, m)
    case CutBy(a, p, next) =>
      s.(log := s.log + [p], owner := s.owner + [a],
         open := if Pending(e, next) then s.open[a := next] else s.open - {a},
         done := if Pending(e, next) then s.done else s.done + [s.messages[a]])
    case Control(p) => s.(log := s.log + [p], owner := s.owner + [CONTROL])
  }

  ghost predicate IsRun(e: Endpoint, states: seq<State>, steps: seq<Step>) {
    && |states| == |steps| + 1 && states[0] == INIT
    && forall i :: 0 <= i < |steps| ==> Enabled(e, states[i], steps[i]) && states[i + 1] == Apply(e, states[i], steps[i])
  }

  predicate Chunk(log: seq<Payload>, i: int) {
    0 <= i < |log| && log[i].flags.chunk
  }

  /** No other chunk-flagged payload lies between two chunks of a message. */
  predicate Apart(log: seq<Payload>, owner: seq<int>) {
    |owner| == |log| &&
    forall i, j, k :: 0 <= i < j < k < |log| && Chunk(log, i) && Chunk(log, j) && Chunk(log, k) && owner[i] == owner[k] ==> owner[j] == owner[i]
  }

  /** The first number from which on the txer has held an unfinished message without a break. */
  ghost function HeldFrom(log: seq<Payload>): (n: nat)
    ensures n <= |log|
  {
    if log == [] || Replay(log).assembly.Idle? then |log| else HeldFrom(log[..|log| - 1])
  }

  /** The txer has not finished a message between taking number `i` and taking number `j`. */
  ghost predicate Holding(log: seq<Payload>, i: nat, j: nat)
    requires j <= |log|
  {
    HeldFrom(log[..j]) <= i
  }

  /** Every message is put together from the chunks of one call, all of them and no others. */
  ghost predicate Whole(log: seq<Payload>, owner: seq<int>) {
    && |owner| == |log| && !Replay(log).stopped && Replay(log).assembly.Idle?
    && forall i: nat, j: nat :: i < j < |log| && Chunk(log, i) && Chunk(log, j) ==> (Holding(log, i, j) <==> owner[i] == owner[j])
  }

  lemma WholeIsApart(log: seq<Payload>, owner: seq<int>)
    requires Whole(log, owner)
    ensures Apart(log, owner)
  {
    forall i, j, k | 0 <= i < j < k < |log| && Chunk(log, i) && Chunk(log, j) && Chunk(log, k) && owner[i] == owner[k]
      ensures owner[j] == owner[i]
    {
      assert Holding(log, i, k);
      HeldBefore(log, i, j, k);
      assert Holding(log, i, j);
    }
  }

  lemma {:induction false} HeldBefore(log: seq<Payload>, i: nat, j: nat, k: nat)
    requires i < j <= k <= |log| && Holding(log, i, k)
    ensures Holding(log, i, j)
    decreases k
  {
    if j < k {
      assert log[..k][..k - 1] == log[..k - 1];
      HeldBefore(log, i, j, k - 1);
    }
  }

  // ---------------------------------------------------------------- one message at a time

  /** A call that has not cut anything yet: none of the numbers is its own. */
  ghost predicate Untouched(e: Endpoint, s: State, a: nat) {
    && a in s.open && a in s.messages && s.open[a].first
    && Tracks(e, Assembly.Idle, s.open[a], s.messages[a].data) && Pending(e, s.open[a])
    && s.messages[a] == DataMessage(s.messages[a].data, s.open[a].headers)
    && a !in s.owner
  }

  /** The call whose message the txer holds a part of. */
  ghost predicate Current(e: Endpoint, s: State, a: nat) {
    && a in s.open && a in s.messages && !s.open[a].first
    && Tracks(e, Replay(s.log).assembly, s.open[a], s.messages[a].data) && Pending(e, s.open[a])
    && s.messages[a] == DataMessage(s.messages[a].data, s.open[a].headers)
    && exists i :: Chunk(s.log, i) && i < |s.owner| && s.owner[i] == a
  }

  /** `mid` is the one call in the middle of its message, if there is one. */
  ghost predicate Good(e: Endpoint, s: State, mid: Option<nat>) {
    && |s.owner| == |s.log| && !Replay(s.log).stopped
    && DataOf(Replay(s.log).out) == s.done
    && (forall a :: a in s.owner ==> a == CONTROL || (a >= 0 && a in s.messages))
    && CallsGood(e, s, mid)
    && (mid.None? ==> Replay(s.log).assembly.Idle?)
    && Held(s.log, s.owner, mid)
    && Grouped(s.log, s.owner)
  }

  ghost predicate CallsGood(e: Endpoint, s: State, mid: Option<nat>) {
    && (forall a :: a in s.open && Some(a) != mid ==> Untouched(e, s, a))
    && (mid.Some? ==> Current(e, s, mid.value))
  }

  /** The chunks the txer still holds are those of the call in the middle. */
  ghost predicate Held(log: seq<Payload>, owner: seq<int>, mid: Option<nat>) {
    |owner| == |log| && forall i: nat :: Chunk(log, i) ==> (Holding(log, i, |log|) <==> mid.Some? && owner[i] == mid.value)
  }

  ghost predicate Grouped(log: seq<Payload>, owner: seq<int>) {
    |owner| == |log| &&
    forall i: nat, j: nat :: i < j < |log| && Chunk(log, i) && Chunk(log, j) ==> (Holding(log, i, j) <==> owner[i] == owner[j])
  }

  lemma {:induction false} HoldingSnoc(log: seq<Payload>, p: Payload, i: nat, j: nat)
    requires i <= j <= |log|
    ensures Holding(log + [p], i, j) <==> Holding(log, i, j)
    ensures Holding(log + [p], i, |log| + 1) <==> Holding(log, i, |log|) && Replay(log + [p]).assembly.Started?
  {
    var l := log + [p];
    assert l[..j] == log[..j] && l[..|l|] == l && log[..|log|] == log && l[..|l| - 1] == log;
  }

  /** A payload the txer does not collect: the groups stay as they were. */
  lemma {:induction false} PassesBy(log: seq<Payload>, owner: seq<int>, mid: Option<nat>, p: Payload, a: int)
    requires Held(log, owner, mid) && Grouped(log, owner) && !p.flags.chunk
    requires Replay(log + [p]).assembly == Replay(log).assembly && (mid.Some? ==> Replay(log).assembly.Started?)
    ensures Held(log + [p], owner + [a], mid) && Grouped(log + [p], owner + [a])
  {
    forall i: nat | Chunk(log + [p], i)
      ensures Holding(log + [p], i, |log| + 1) <==> mid.Some? && (owner + [a])[i] == mid.value
    {
      HoldingSnoc(log, p, i, i);
      assert Chunk(log, i);
    }
    forall i: nat, j: nat | i < j < |log| + 1 && Chunk(log + [p], i) && Chunk(log + [p], j)
      ensures Holding(log + [p], i, j) <==> (owner + [a])[i] == (owner + [a])[j]
    {
      HoldingSnoc(log, p, i, j);
      assert Chunk(log, i) && Chunk(log, j);
    }
  }

  /** A chunk of `a`, which is in the middle of its message or starts it with nothing held. */
  lemma {:induction false} Collected(log: seq<Payload>, owner: seq<int>, mid: Option<nat>, p: Payload, a: nat, after: Option<nat>)
    requires Held(log, owner, mid) && Grouped(log, owner) && p.flags.chunk
    requires mid == Some(a) || (mid.None? && a !in owner)
    requires after == if Replay(log + [p]).assembly.Started? then Some(a) else None
    ensures Held(log + [p], owner + [a], after) && Grouped(log + [p], owner + [a])
  {
    var l, o := log + [p], owner + [a];
    forall i: nat | Chunk(l, i) ensures Holding(l, i, |l|) <==> after.Some? && o[i] == after.value {
      HoldingSnoc(log, p, i, i);
      if i < |log| {
        assert Chunk(log, i) && o[i] in owner;
      }
    }
    forall i: nat, j: nat | i < j < |l| && Chunk(l, i) && Chunk(l, j) ensures Holding(l, i, j) <==> o[i] == o[j] {
      HoldingSnoc(log, p, i, j);
      assert Chunk(log, i) && o[i] in owner;
      if j < |log| {
        assert Chunk(log, j);
      }
    }
  }

  // ---------------------------------------------------------------- the steps

  lemma StartCalls(e: Endpoint, s: State, mid: Option<nat>, a: nat, m: Write)
    requires CallsGood(e, s, mid) && a !in s.messages && a !in s.owner && ValidWrite(m) && Pending(e, Begin(m))
    ensures CallsGood(e, StartedCall(s, a, m), mid)
  {
    BeginTracks(e, m);
    var t := StartedCall(s, a, m);
    forall b | b in t.open && Some(b) != mid ensures Untouched(e, t, b) {
      if b != a {
        assert Untouched(e, s, b);
      }
    }
  }

  lemma StartKeeps(e: Endpoint, s: State, mid: Option<nat>, a: nat, m: Write)
    requires Good(e, s, mid) && a !in s.messages && ValidWrite(m) && Pending(e, Begin(m))
    ensures Good(e, StartedCall(s, a, m), mid)
  {
    assert a !in s.owner;
    StartCalls(e, s, mid, a, m);
  }

  lemma {:induction false} ControlReplays(log: seq<Payload>, p: Payload)
    requires IsControl(p) && !Stops(p) && !Replay(log).stopped
    ensures var r := Replay(log + [p]);
            r.assembly == Replay(log).assembly && !r.stopped && DataOf(r.out) == DataOf(Replay(log).out)
  {
    WritePath.ReplaySnoc(log, p);
    ControlTracks(Replay(log), p);
  }

  lemma ControlKeeps(e: Endpoint, s: State, mid: Option<nat>, p: Payload)
    requires Good(e, s, mid) && IsControl(p) && !Stops(p)
    ensures Good(e, s.(log := s.log + [p], owner := s.owner + [CONTROL]), mid)
  {
    ControlReplays(s.log, p);
    MidIsHeld(e, s, mid);
    PassesBy(s.log, s.owner, mid, p, CONTROL);
    StillOpen(e, s, s.(log := s.log + [p], owner := s.owner + [CONTROL]), mid, CONTROL);
  }

  lemma MidIsHeld(e: Endpoint, s: State, mid: Option<nat>)
    requires CallsGood(e, s, mid)
    ensures mid.Some? ==> mid.value in s.open && Replay(s.log).assembly.Started?
  {
  }

  /** Calls that are not concerned stay as they are. */
  lemma StillOpen(e: Endpoint, s: State, t: State, mid: Option<nat>, a: int)
    requires |s.owner| == |s.log| && t.messages == s.messages && |t.log| == |s.log| + 1 && t.log[..|s.log|] == s.log && t.owner == s.owner + [a]
    requires Replay(t.log).assembly == Replay(s.log).assembly
    requires forall b :: b in t.open ==> b in s.open && t.open[b] == s.open[b] && b != a
    requires CallsGood(e, s, mid) && (mid.Some? ==> mid.value in t.open)
    ensures CallsGood(e, t, mid)
  {
    forall b | b in t.open && Some(b) != mid ensures Untouched(e, t, b) {
      assert Untouched(e, s, b);
    }
    if mid.Some? {
      var i :| Chunk(s.log, i) && i < |s.owner| && s.owner[i] == mid.value;
      assert t.log[i] == s.log[i] && t.owner[i] == s.owner[i];
      assert Chunk(t.log, i);
    }
  }

  /** A payload without the chunk flag is all of the message. */
  lemma WholeData(e: Endpoint, w: Writing, n: nat, p: Payload, next: Writing)
    requires ValidWriting(w) && w.first && Pending(e, w) && n < TWO31 && NextPayload(e, w, n) == Cut(p, next) && !p.flags.chunk
    ensures !Pending(e, next) && p.data == w.rest && p.headers == w.headers && p.flags == Flags(originator := e.terminator)
  {
    if e.mtu > 0 {
      FirstCut(e, w, n);
    }
  }

  /** A message that fits goes through whole, whatever the txer holds. */
  lemma WholeCut(e: Endpoint, w: Writing, n: nat, r: Consumer, buffer: seq<uint8>, p: Payload, next: Writing)
    requires Tracks(e, Assembly.Idle, w, buffer) && w.first && Pending(e, w) && n < TWO31 && NextPayload(e, w, n) == Cut(p, next)
    requires !p.flags.chunk && !r.stopped
    ensures !Pending(e, next)
    ensures Consume(r, p) == Consumer(r.assembly, r.out + [DataMessage(buffer, w.headers)], false)
  {
    WholeData(e, w, n, p, next);
    assert w.rest == buffer;
    PlainConsumes(r, p);
  }

  lemma PlainConsumes(r: Consumer, p: Payload)
    requires !r.stopped && !p.flags.chunk && !Stops(p) && !p.flags.circuitStart && !p.flags.writeFailed
    ensures Consume(r, p) == Consumer(r.assembly, r.out + [DataMessage(p.data, p.headers)], false)
  {
  }

  lemma WholeReplays(s: State, p: Payload, message: Delivery)
    requires Consume(Replay(s.log), p) == Consumer(Replay(s.log).assembly, Replay(s.log).out + [message], false) && !message.notice
    ensures var r := Replay(s.log + [p]);
            r.assembly == Replay(s.log).assembly && !r.stopped && DataOf(r.out) == DataOf(Replay(s.log).out) + [message]
  {
    WritePath.ReplaySnoc(s.log, p);
    SnocData(Replay(s.log).out, message);
  }

  lemma CutFrames(e: Endpoint, s: State, a: nat, p: Payload, next: Writing)
    requires Enabled(e, s, CutBy(a, p, next)) && !Pending(e, next)
    ensures Apply(e, s, CutBy(a, p, next)) == s.(log := s.log + [p], owner := s.owner + [a], open := s.open - {a}, done := s.done + [s.messages[a]])
  {
  }

  lemma WholeKeeps(e: Endpoint, s: State, mid: Option<nat>, a: nat, p: Payload, next: Writing)
    requires Good(e, s, mid) && Enabled(e, s, CutBy(a, p, next)) && !p.flags.chunk && Some(a) != mid
    ensures Good(e, Apply(e, s, CutBy(a, p, next)), mid)
  {
    assert Untouched(e, s, a);
    WholeCut(e, s.open[a], |s.log|, Replay(s.log), s.messages[a].data, p, next);
    CutFrames(e, s, a, p, next);
    WholePasses(e, s, mid, a, p);
  }

  lemma WholePasses(e: Endpoint, s: State, mid: Option<nat>, a: nat, p: Payload)
    requires Good(e, s, mid) && Untouched(e, s, a) && !p.flags.chunk && Some(a) != mid
    requires Consume(Replay(s.log), p) == Consumer(Replay(s.log).assembly, Replay(s.log).out + [s.messages[a]], false)
    ensures Good(e, s.(log := s.log + [p], owner := s.owner + [a], open := s.open - {a}, done := s.done + [s.messages[a]]), mid)
  {
    var t := s.(log := s.log + [p], owner := s.owner + [a], open := s.open - {a}, done := s.done + [s.messages[a]]);
    WholeReplays(s, p, s.messages[a]);
    MidIsHeld(e, s, mid);
    PassesBy(s.log, s.owner, mid, p, a);
    StillOpen(e, s, t, mid, a);
  }

  /** All one chunk does to a txer that has the message so far. */
  lemma {:induction false} ChunkCut(e: Endpoint, w: Writing, log: seq<Payload>, buffer: seq<uint8>, p: Payload, next: Writing)
    requires Tracks(e, Replay(log).assembly, w, buffer) && Pending(e, w) && !Replay(log).stopped && |log| < TWO31
    requires NextPayload(e, w, |log|) == Cut(p, next)
    ensures var r := Replay(log + [p]);
            && !r.stopped && Tracks(e, r.assembly, next, buffer) && !next.first && next.headers == w.headers
            && (r.assembly.Started? <==> Pending(e, next))
            && DataOf(r.out) == DataOf(Replay(log).out) + if Pending(e, next) then [] else [DataMessage(buffer, w.headers)]
  {
    ChunkTracks(e, w, |log|, Replay(log), buffer);
    WritePath.ReplaySnoc(log, p);
    SnocData(Replay(log).out, DataMessage(buffer, w.headers));
  }

  lemma OthersUntouched(e: Endpoint, s: State, t: State, mid: Option<nat>, a: nat)
    requires forall b :: b in s.open && Some(b) != mid ==> Untouched(e, s, b)
    requires t.messages == s.messages && t.owner == s.owner + [a] && (mid == Some(a) || mid.None?)
    requires forall b :: b in t.open && b != a ==> b in s.open && t.open[b] == s.open[b]
    ensures forall b :: b in t.open && b != a ==> Untouched(e, t, b)
  {
    forall b | b in t.open && b != a ensures Untouched(e, t, b) {
      assert Untouched(e, s, b);
    }
  }

  /** What the next state must look like for the chunk to be collected. */
  lemma ChunkCollected(e: Endpoint, s: State, mid: Option<nat>, a: nat, p: Payload, t: State, after: Option<nat>)
    requires Good(e, s, mid) && p.flags.chunk && (mid == Some(a) || (mid.None? && a !in s.owner)) && a in s.messages
    requires t.messages == s.messages && t.log == s.log + [p] && t.owner == s.owner + [a]
    requires forall b :: b in t.open && b != a ==> b in s.open && t.open[b] == s.open[b]
    requires !Replay(t.log).stopped && DataOf(Replay(t.log).out) == t.done
    requires after == if Replay(t.log).assembly.Started? then Some(a) else None
    requires after.None? ==> a !in t.open
    requires after.Some? ==>
               && a in t.open && !t.open[a].first && Pending(e, t.open[a])
               && Tracks(e, Replay(t.log).assembly, t.open[a], s.messages[a].data)
               && s.messages[a] == DataMessage(s.messages[a].data, t.open[a].headers)
    ensures Good(e, t, after)
  {
    Collected(s.log, s.owner, mid, p, a, after);
    OthersUntouched(e, s, t, mid, a);
    if after.Some? {
      assert Chunk(t.log, |s.log|) && t.owner[|s.log|] == a;
    }
  }

  /** The state behind a cut, without how it is cut. */
  lemma CutAgain(e: Endpoint, s: State, a: nat, p: Payload, next: Writing)
    requires Enabled(e, s, CutBy(a, p, next))
    ensures var t := Apply(e, s, CutBy(a, p, next));
            && t.messages == s.messages && t.log == s.log + [p] && t.owner == s.owner + [a]
            && t.open == (if Pending(e, next) then s.open[a := next] else s.open - {a})
            && t.done == s.done + if Pending(e, next) then [] else [s.messages[a]]
  {
  }

  lemma ChunkKeeps(e: Endpoint, s: State, mid: Option<nat>, a: nat, p: Payload, next: Writing)
    requires Good(e, s, mid) && Enabled(e, s, CutBy(a, p, next)) && p.flags.chunk && (mid == Some(a) || mid.None?)
    ensures Good(e, Apply(e, s, CutBy(a, p, next)), if Pending(e, next) then Some(a) else None)
  {
    if mid.None? {
      assert Untouched(e, s, a);
    }
    ChunkCut(e, s.open[a], s.log, s.messages[a].data, p, next);
    CutAgain(e, s, a, p, next);
    ChunkAdded(e, s, mid, a, p, next, Apply(e, s, CutBy(a, p, next)));
  }

  lemma ChunkAdded(e: Endpoint, s: State, mid: Option<nat>, a: nat, p: Payload, next: Writing, t: State)
    requires Good(e, s, mid) && p.flags.chunk && (mid == Some(a) || (mid.None? && a !in s.owner)) && a in s.messages
    requires t.messages == s.messages && t.log == s.log + [p] && t.owner == s.owner + [a]
    requires t.open == if Pending(e, next) then s.open[a := next] else s.open - {a}
    requires t.done == s.done + if Pending(e, next) then [] else [s.messages[a]]
    requires var r := Replay(t.log);
             && !r.stopped && Tracks(e, r.assembly, next, s.messages[a].data) && !next.first
             && (r.assembly.Started? <==> Pending(e, next))
             && DataOf(r.out) == DataOf(Replay(s.log).out) + if Pending(e, next) then [] else [s.messages[a]]
    requires s.messages[a] == DataMessage(s.messages[a].data, next.headers)
    ensures Good(e, t, if Pending(e, next) then Some(a) else None)
  {
    ChunkCollected(e, s, mid, a, p, t, if Pending(e, next) then Some(a) else None);
  }

  // ---------------------------------------------------------------- every run

  lemma {:induction false} Prefixes(e: Endpoint, states: seq<State>, steps: seq<Step>, i: nat, j: nat)
    requires IsRun(e, states, steps) && i <= j < |states|
    ensures states[i].log <= states[j].log && states[i].owner <= states[j].owner && |states[i].log| == |states[i].owner|
    decreases j
  {
    if i < j {
      Prefixes(e, states, steps, i, j - 1);
    } else if i > 0 {
      Prefixes(e, states, steps, i - 1, i - 1);
    }
  }

  /** A call that is over later made another cut, from where it stood. */
  lemma {:induction false} NextCutOf(e: Endpoint, states: seq<State>, steps: seq<Step>, i: nat, a: nat) returns (k: nat)
    requires IsRun(e, states, steps) && i < |states| && a in states[i].open && a !in states[|steps|].open && a in states[i].messages
    ensures i <= k < |steps| && steps[k].CutBy? && steps[k].a == a && a in states[k].open && states[k].open[a] == states[i].open[a]
    decreases |states| - i
  {
    if steps[i].CutBy? && steps[i].a == a {
      k := i;
    } else {
      k := NextCutOf(e, states, steps, i + 1, a);
    }
  }

  lemma LaterChunk(e: Endpoint, states: seq<State>, steps: seq<Step>, i: nat, a: nat) returns (k: nat)
    requires IsRun(e, states, steps) && i < |steps| && Current(e, states[i], a) && a !in states[|steps|].open
    requires steps[i].CutBy? && steps[i].a != a
    ensures i < k < |steps| && |states[k].log| == |states[k].owner| && |states[k + 1].log| == |states[k + 1].owner| == |states[k].log| + 1
    ensures Chunk(states[k + 1].log, |states[k].log|) && states[k + 1].owner[|states[k].log|] == a
  {
    k := NextCutOf(e, states, steps, i + 1, a);
    ChunkedStays(e, states[k].open[a], |states[k].log|);
    Prefixes(e, states, steps, k, k);
  }

  /** With the messages apart, only the call in the middle of its message can be next to cut a chunk. */
  lemma NoIntruder(e: Endpoint, states: seq<State>, steps: seq<Step>, i: nat, a: nat)
    requires IsRun(e, states, steps) && i < |steps| && Current(e, states[i], a) && a !in states[|steps|].open
    requires steps[i].CutBy? && steps[i].p.flags.chunk && steps[i].a != a
    ensures !Apart(states[|steps|].log, states[|steps|].owner)
  {
    var k := LaterChunk(e, states, steps, i, a);
    Prefixes(e, states, steps, i, i + 1);
    Prefixes(e, states, steps, i + 1, k);
    Prefixes(e, states, steps, k + 1, |steps|);
    Prefixes(e, states, steps, i + 1, |steps|);
    Prefixes(e, states, steps, |steps|, |steps|);
    var first :| Chunk(states[i].log, first) && first < |states[i].owner| && states[i].owner[first] == a;
    Intrudes(states[i], states[i + 1], states[k], states[k + 1], states[|steps|], first, a);
  }

  lemma ChunkedStays(e: Endpoint, w: Writing, n: nat)
    requires ValidWriting(w) && !w.first && w.chunked && e.mtu > 0 && n < TWO31 && NextPayload(e, w, n).Cut?
    ensures NextPayload(e, w, n).payload.flags.chunk
  {
  }

  /** A foreign chunk behind `first` and before another chunk of `a`. */
  lemma Intrudes(s: State, t: State, u: State, v: State, last: State, first: nat, a: nat)
    requires |s.log| == |s.owner| && Chunk(s.log, first) && s.owner[first] == a
    requires |t.log| == |t.owner| == |s.log| + 1 && s.log <= t.log && s.owner <= t.owner && Chunk(t.log, |s.log|) && t.owner[|s.log|] != a
    requires |u.log| == |u.owner| && t.log <= u.log && |v.log| == |v.owner| == |u.log| + 1 && Chunk(v.log, |u.log|) && v.owner[|u.log|] == a
    requires t.log <= last.log && t.owner <= last.owner && v.log <= last.log && v.owner <= last.owner && |last.owner| == |last.log|
    ensures !Apart(last.log, last.owner)
  {
    var i, j, k := first, |s.log|, |u.log|;
    assert Chunk(last.log, i) && Chunk(last.log, j) && Chunk(last.log, k);
    assert last.owner[i] == a && last.owner[j] != a && last.owner[k] == a;
  }

  lemma {:induction false} ApartIsGood(e: Endpoint, states: seq<State>, steps: seq<Step>, i: nat) returns (mid: Option<nat>)
    requires IsRun(e, states, steps) && i < |states| && states[|steps|].open == map[]
    requires Apart(states[|steps|].log, states[|steps|].owner)
    ensures Good(e, states[i], mid)
  {
    if i == 0 {
      mid := None;
    } else {
      mid := ApartIsGood(e, states, steps, i - 1);
      var s, step := states[i - 1], steps[i - 1];
      match step
      case Start(a, m) => StartKeeps(e, s, mid, a, m);
      case Control(p) => ControlKeeps(e, s, mid, p);
      case CutBy(a, p, next) =>
        if p.flags.chunk {
          if mid.Some? && mid.value != a {
            NoIntruder(e, states, steps, i - 1, mid.value);
          }
          ChunkKeeps(e, s, mid, a, p, next);
          mid := if Pending(e, next) then Some(a) else None;
        } else {
          if mid == Some(a) {
            MidCutsChunks(e, s, a, p, next);
          }
          WholeKeeps(e, s, mid, a, p, next);
        }
    }
  }

  lemma MidCutsChunks(e: Endpoint, s: State, a: nat, p: Payload, next: Writing)
    requires Current(e, s, a) && Enabled(e, s, CutBy(a, p, next))
    ensures p.flags.chunk
  {
    ChunkedStays(e, s.open[a], |s.log|);
  }

  /**
   When all calls are over: every message was put together from the chunks of its own call, all of
   them and no others, if and only if no other chunk-flagged payload lies between two chunks of a
   message. And then the peer gets every message as it was written, in the order they were finished.
   */
  lemma WholeExactly(e: Endpoint, states: seq<State>, steps: seq<Step>)
    requires IsRun(e, states, steps) && states[|steps|].open == map[]
    ensures var s := states[|steps|];
            && (Whole(s.log, s.owner) <==> Apart(s.log, s.owner))
            && (Apart(s.log, s.owner) ==> DataOf(Replay(s.log).out) == s.done)
  {
    var s := states[|steps|];
    if Whole(s.log, s.owner) {
      WholeIsApart(s.log, s.owner);
    }
    if Apart(s.log, s.owner) {
      var mid := ApartIsGood(e, states, steps, |steps|);
    }
  }

  // ---------------------------------------------------------------- two writes at once

  /** No circuit id, and an MTU that leaves three bytes to the chunks numbered 1 to 4. */
  const NARROW := Endpoint([], false, 6)

  function Piece(n: nat, data: seq<uint8>): Payload
    requires n < TWO31
  {
    Payload([], Flags(chunk := true), 0, n, map[], data)
  }

  function Plain(bytes: seq<uint8>): Write {
    Write(bytes, map[], [])
  }

  /** A write of four bytes with two of them cut off. */
  function Half(bytes: seq<uint8>): Writing
    requires |bytes| == 4
  {
    Writing(bytes[2..], 4, map[], [], false, true)
  }

  lemma FirstHalf(bytes: seq<uint8>, n: nat)
    requires |bytes| == 4 && 1 <= n <= 4
    ensures ValidWrite(Plain(bytes)) && Pending(NARROW, Begin(Plain(bytes))) && Pending(NARROW, Half(bytes))
    ensures NextPayload(NARROW, Begin(Plain(bytes)), n) == Cut(Piece(n, [4] + bytes[..2]), Half(bytes))
  {
  }

  lemma SecondHalf(bytes: seq<uint8>, n: nat)
    requires |bytes| == 4 && 1 <= n <= 4
    ensures ValidWriting(Half(bytes))
    ensures NextPayload(NARROW, Half(bytes), n) == Cut(Piece(n, bytes[2..]), Half(bytes).(rest := []))
    ensures !Pending(NARROW, Half(bytes).(rest := []))
  {
    assert bytes[2..][..2] == bytes[2..] && bytes[2..][2..] == [];
  }

  /** Under way: neither call has cut anything, and number 0 was taken by a control payload. */
  function BothStarted(p: Payload, a: seq<uint8>, b: seq<uint8>): State {
    State([p], [CONTROL], map[0 := Begin(Plain(a)), 1 := Begin(Plain(b))],
          map[0 := DataMessage(a, map[]), 1 := DataMessage(b, map[])], [])
  }

  function HalfwayLog(p: Payload, a: seq<uint8>, b: seq<uint8>): seq<Payload>
    requires |a| == |b| == 4
  {
    [p, Piece(1, [4] + a[..2]), Piece(2, [4] + b[..2])]
  }

  /** Each call has cut its first chunk. */
  function Halfway(p: Payload, a: seq<uint8>, b: seq<uint8>): State
    requires |a| == |b| == 4
  {
    BothStarted(p, a, b).(log := HalfwayLog(p, a, b), owner := [CONTROL, 0, 1], open := map[0 := Half(a), 1 := Half(b)])
  }

  /** And its second one. */
  function BothDone(p: Payload, a: seq<uint8>, b: seq<uint8>): State
    requires |a| == |b| == 4
  {
    State(HalfwayLog(p, a, b) + [Piece(3, a[2..]), Piece(4, b[2..])], [CONTROL, 0, 1, 0, 1], map[],
          map[0 := DataMessage(a, map[]), 1 := DataMessage(b, map[])], [DataMessage(a, map[]), DataMessage(b, map[])])
  }

  lemma RunGrows(e: Endpoint, states: seq<State>, steps: seq<Step>, step: Step)
    requires IsRun(e, states, steps) && Enabled(e, states[|steps|], step)
    ensures IsRun(e, states + [Apply(e, states[|steps|], step)], steps + [step])
  {
    var s, t := states + [Apply(e, states[|steps|], step)], steps + [step];
    forall i | 0 <= i < |t| ensures Enabled(e, s[i], t[i]) && s[i + 1] == Apply(e, s[i], t[i]) {
      if i < |steps| {
        assert s[i] == states[i] && s[i + 1] == states[i + 1] && t[i] == steps[i];
      }
    }
  }

  lemma RunStarts(p: Payload, a: seq<uint8>, b: seq<uint8>) returns (states: seq<State>, steps: seq<Step>)
    requires IsControl(p) && !Stops(p) && |a| == |b| == 4
    ensures IsRun(NARROW, states, steps) && states[|steps|] == BothStarted(p, a, b)
  {
    FirstHalf(a, 1);
    FirstHalf(b, 2);
    states, steps := [INIT], [];
    var one := Control(p);
    RunGrows(NARROW, states, steps, one);
    states, steps := states + [Apply(NARROW, states[|steps|], one)], steps + [one];
    var two := Start(0, Plain(a));
    RunGrows(NARROW, states, steps, two);
    states, steps := states + [Apply(NARROW, states[|steps|], two)], steps + [two];
    var three := Start(1, Plain(b));
    RunGrows(NARROW, states, steps, three);
    states, steps := states + [Apply(NARROW, states[|steps|], three)], steps + [three];
  }

  lemma RunHalfway(p: Payload, a: seq<uint8>, b: seq<uint8>) returns (states: seq<State>, steps: seq<Step>)
    requires IsControl(p) && !Stops(p) && |a| == |b| == 4
    ensures IsRun(NARROW, states, steps) && states[|steps|] == Halfway(p, a, b)
  {
    states, steps := RunStarts(p, a, b);
    FirstHalf(a, 1);
    FirstHalf(b, 2);
    var one := CutBy(0, Piece(1, [4] + a[..2]), Half(a));
    RunGrows(NARROW, states, steps, one);
    states, steps := states + [Apply(NARROW, states[|steps|], one)], steps + [one];
    var two := CutBy(1, Piece(2, [4] + b[..2]), Half(b));
    RunGrows(NARROW, states, steps, two);
    states, steps := states + [Apply(NARROW, states[|steps|], two)], steps + [two];
  }

  lemma RunEnds(p: Payload, a: seq<uint8>, b: seq<uint8>) returns (states: seq<State>, steps: seq<Step>)
    requires IsControl(p) && !Stops(p) && |a| == |b| == 4
    ensures IsRun(NARROW, states, steps) && states[|steps|] == BothDone(p, a, b)
  {
    states, steps := RunHalfway(p, a, b);
    SecondHalf(a, 3);
    SecondHalf(b, 4);
    var one := CutBy(0, Piece(3, a[2..]), Half(a).(rest := []));
    RunGrows(NARROW, states, steps, one);
    states, steps := states + [Apply(NARROW, states[|steps|], one)], steps + [one];
    var two := CutBy(1, Piece(4, b[2..]), Half(b).(rest := []));
    RunGrows(NARROW, states, steps, two);
    states, steps := states + [Apply(NARROW, states[|steps|], two)], steps + [two];
  }

  /** The first chunk of the second message is taken for more of the first one and overruns it. */
  lemma HalfwayOverruns(p: Payload, a: seq<uint8>, b: seq<uint8>)
    requires IsControl(p) && p.flags.circuitStart && !Stops(p) && |a| == |b| == 4
    ensures var r := Replay(HalfwayLog(p, a, b));
            !r.stopped && r.out == [] && r.assembly.Started? && |r.assembly.data| == 4 && r.assembly.offset == 5
  {
    var x, y := Piece(1, [4] + a[..2]), Piece(2, [4] + b[..2]);
    assert [p] == [] + [p] && [p, x] == [p] + [x] && HalfwayLog(p, a, b) == [p, x] + [y];
    WritePath.ReplaySnoc([], p);
    WritePath.ReplaySnoc([p], x);
    WritePath.ReplaySnoc([p, x], y);
    assert x.data == PutUvarint(|a|) + a[..2];
    OpeningChunk(x, a, 2);
  }

  /**
   Two writes of four bytes whose chunks interleave, for any bytes: both calls end without an error,
   the second chunk overruns the first message, the third finds the offset behind its end, and the
   txer panics without having delivered anything.
   */
  lemma InterleavedWritesCrash(p: Payload, a: seq<uint8>, b: seq<uint8>) returns (states: seq<State>, steps: seq<Step>)
    requires IsControl(p) && p.flags.circuitStart && !Stops(p) && |a| == |b| == 4
    ensures IsRun(NARROW, states, steps)
    ensures var s := states[|steps|];
            && s.open == map[] && s.done == [DataMessage(a, map[]), DataMessage(b, map[])]
            && Replay(s.log).stopped && Replay(s.log).out == [] && !Apart(s.log, s.owner)
  {
    states, steps := RunEnds(p, a, b);
    var log := HalfwayLog(p, a, b);
    var third, fourth := Piece(3, a[2..]), Piece(4, b[2..]);
    HalfwayOverruns(p, a, b);
    WritePath.ReplaySnoc(log, third);
    WritePath.ReplaySnoc(log + [third], fourth);
    var all := BothDone(p, a, b).log;
    assert all == log + [third] + [fourth];
    assert Chunk(all, 1) && Chunk(all, 2) && Chunk(all, 3);
  }
}
