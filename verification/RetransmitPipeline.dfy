/**
 The retransmit pipeline as a state machine over the atomic steps of its goroutines: the send
 loops (which mark payloads and put them on the ingest channel), the ingester (which owns the
 linked queue) and the sender. Each payload carries one counter: +1 while it is queued for
 retransmission, +2 once it is acked.

 A channel send that blocks is a step that is not enabled yet. A send loop works on one payload
 at a time; here every payload has its own program counter, which allows all those runs.
 */
module RetransmitPipeline {
  import opened RetransmitQueue

  datatype Stage =
    | Resting
    | Selected     // found retransmittable, not marked yet
    | Marked       // counter raised by one, not on the ingest channel yet
    | Removing     // counter raised by two, removal not on the ingest channel yet

  datatype Ingester =
    | Top                                // about to pop the head if it holds nothing
    | Select                             // waiting on its channels
    | Got(n: nat)                        // received, isAcked not read yet
    | Deciding(n: nat, acked: bool)      // isAcked read, queue not changed yet

  datatype Sender =
    | Waiting
    | Took(n: nat)                       // received, isAcked not read yet
    | Sending(n: nat)                    // isAcked was false, dequeued not called yet

  datatype State = State(
    counter: map<nat, int>,              // retxQueued
    held: set<nat>,                      // payloads in a send buffer
    stage: map<nat, Stage>,
    ingest: seq<nat>,
    ingester: Ingester,
    list: seq<nat>,
    next: seq<nat>,                      // at most one
    send: seq<nat>,
    sender: Sender)

  const INGEST_CAPACITY := 16
  const SEND_CAPACITY := 1

  const INIT := State(map[], {}, map[], [], Top, [], [], [], Waiting)

  datatype Step =
    | Buffer(n: nat)
    | Choose(n: nat)
    | MarkQueued(n: nat)
    | MarkAcked(n: nat)
    | Enqueue(n: nat)
    | PopHead
    | Take
    | ReadAcked
    | Decide
    | Give
    | SenderTake
    | SenderCheck
    | Dequeued

  predicate Known(s: State, n: nat) {
    n in s.counter && n in s.stage
  }

  predicate Enabled(s: State, step: Step) {
    match step
    case Buffer(n) => n !in s.counter
    case Choose(n) => Known(s, n) && s.stage[n].Resting? && n in s.held && s.counter[n] == 0
    case MarkQueued(n) => Known(s, n) && s.stage[n].Selected?
    case MarkAcked(n) => Known(s, n) && s.stage[n].Resting? && n in s.held
    case Enqueue(n) => Known(s, n) && (s.stage[n].Marked? || s.stage[n].Removing?) && |s.ingest| < INGEST_CAPACITY
    case PopHead => s.ingester.Top?
    case Take => s.ingester.Select? && s.ingest != []
    case ReadAcked => s.ingester.Got? && s.ingester.n in s.counter
    case Decide => s.ingester.Deciding?
    case Give => s.ingester.Select? && s.next != [] && |s.send| < SEND_CAPACITY
    case SenderTake => s.sender.Waiting? && s.send != []
    case SenderCheck => s.sender.Took? && s.sender.n in s.counter
    case Dequeued => s.sender.Sending? && s.sender.n in s.counter
  }

  function Apply(s: State, step: Step): State
    requires Enabled(s, step)
  {
    match step
    case Buffer(n) => s.(counter := s.counter[n := 0], stage := s.stage[n := Resting], held := s.held + {n})
    case Choose(n) => s.(stage := s.stage[n := Selected])
    case MarkQueued(n) => s.(counter := s.counter[n := s.counter[n] + 1], stage := s.stage[n := Marked])
    case MarkAcked(n) =>
      var after := s.counter[n] + 2;
      s.(counter := s.counter[n := after], held := s.held - {n}, stage := if after > 2 then s.stage[n := Removing] else s.stage)
    case Enqueue(n) => s.(ingest := s.ingest + [n], stage := s.stage[n := Resting])
    case PopHead =>
      if s.next == [] && s.list != [] then s.(next := [s.list[0]], list := s.list[1..], ingester := Select)
      else s.(ingester := Select)
    case Take => s.(ingest := s.ingest[1..], ingester := Got(s.ingest[0]))
    case ReadAcked => s.(ingester := Deciding(s.ingester.n, s.counter[s.ingester.n] > 1))
    case Decide =>
      var n := s.ingester.n;
      s.(list := if s.ingester.acked then Without(s.list, n) else Pushed(s.list, n), ingester := Top)
    case Give => s.(send := s.send + s.next[..1], next := s.next[1..], ingester := Top)
    case SenderTake => s.(send := s.send[1..], sender := Took(s.send[0]))
    case SenderCheck => s.(sender := if s.counter[s.sender.n] > 1 then Waiting else Sending(s.sender.n))
    case Dequeued => s.(counter := s.counter[s.sender.n := s.counter[s.sender.n] - 1], sender := Waiting)
  }

  ghost predicate IsRun(states: seq<State>, steps: seq<Step>) {
    && |states| == |steps| + 1 && states[0] == INIT
    && forall i :: 0 <= i < |steps| ==> Enabled(states[i], steps[i]) && states[i + 1] == Apply(states[i], steps[i])
  }

  // ---------------------------------------------------------------- the view of one payload

  datatype Hand = Elsewhere | Here | Adding | Deleting

  /** Everything in the state that concerns one payload. */
  datatype View = View(
    known: bool, counter: int, held: bool, stage: Stage,
    ingest: nat, hand: Hand, linked: nat, next: nat, send: nat, taken: bool, sending: bool)

  function Count(q: seq<nat>, n: nat): nat {
    multiset(q)[n]
  }

  function ViewOf(s: State, n: nat): View {
    View(Known(s, n),
         if n in s.counter then s.counter[n] else 0,
         n in s.held,
         if n in s.stage then s.stage[n] else Resting,
         Count(s.ingest, n),
         match s.ingester
         case Got(m) => if m == n then Here else Elsewhere
         case Deciding(m, acked) => if m != n then Elsewhere else if acked then Deleting else Adding
         case _ => Elsewhere,
         Count(s.list, n), Count(s.next, n), Count(s.send, n),
         s.sender == Took(n), s.sender == Sending(n))
  }

  /** How many places of the pipeline the payload occupies. */
  function Places(v: View): nat {
    (if v.stage.Marked? then 1 else 0) + v.ingest + (if v.hand.Elsewhere? then 0 else 1) + v.linked + v.next + v.send
    + (if v.taken then 1 else 0) + (if v.sending then 1 else 0)
  }

  predicate Acked(v: View) {
    v.counter > 1
  }

  predicate RemovalPending(v: View) {
    v.stage.Removing? || v.ingest > 0 || v.hand.Here? || v.hand.Deleting?
  }

  predicate Sound(v: View) {
    && 0 <= v.counter <= 3
    && (!v.known ==> v.counter == 0 && !v.held && v.stage.Resting?)
    && (v.known ==> (v.held <==> !Acked(v)))
    && (!Acked(v) ==> Places(v) == v.counter)
    && (v.stage.Selected? ==> v.counter == 0 && v.known)
    && (v.stage.Marked? ==> v.counter == 1)
    && (v.stage.Removing? ==> Acked(v))
    && (v.hand.Deleting? ==> Acked(v))
    && (v.sending ==> v.counter == 1 || v.counter == 3)
    && (Acked(v) && (v.linked > 0 || v.hand.Adding?) ==> RemovalPending(v))
    && v.linked <= 1
  }

  // ---------------------------------------------------------------- what a step does to one payload

  lemma CountSnoc(q: seq<nat>, x: nat, n: nat)
    ensures Count(q + [x], n) == Count(q, n) + if x == n then 1 else 0
  {
  }

  lemma CountTail(q: seq<nat>, n: nat)
    requires q != []
    ensures Count(q[1..], n) == Count(q, n) - if q[0] == n then 1 else 0
    ensures Count(q[..1], n) == if q[0] == n then 1 else 0
  {
    assert q == [q[0]] + q[1..];
    assert multiset(q) == multiset{q[0]} + multiset(q[1..]);
    assert q[..1] == [q[0]];
  }

  lemma CountIn(q: seq<nat>, n: nat)
    ensures Count(q, n) > 0 <==> n in q
  {
  }

  lemma {:induction false} CountWithout(q: seq<nat>, x: nat, n: nat)
    ensures Count(Without(q, x), n) == if x == n then 0 else Count(q, n)
  {
    if q != [] {
      CountWithout(q[1..], x, n);
      CountTail(q, n);
      if q[0] != x {
        var rest := Without(q[1..], x);
        assert multiset([q[0]] + rest) == multiset{q[0]} + multiset(rest);
      }
    }
  }

  /** What one step makes of the view of one payload; `mine` says whether the step is about it. */
  predicate Moves(v: View, w: View, step: Step, mine: bool) {
    match step
    case Buffer(_) => if mine then !v.known && w == v.(known := true, held := true, counter := 0, stage := Resting) else w == v
    case Choose(_) => if mine then v.known && v.stage.Resting? && v.held && v.counter == 0 && w == v.(stage := Selected) else w == v
    case MarkQueued(_) => if mine then v.known && v.stage.Selected? && w == v.(counter := v.counter + 1, stage := Marked) else w == v
    case MarkAcked(_) =>
      if mine then v.known && v.stage.Resting? && v.held
                   && w == v.(counter := v.counter + 2, held := false, stage := if v.counter + 2 > 2 then Removing else Resting)
      else w == v
    case Enqueue(_) =>
      if mine then v.known && (v.stage.Marked? || v.stage.Removing?) && w == v.(ingest := v.ingest + 1, stage := Resting) else w == v
    case PopHead => w == v || (v.linked > 0 && w == v.(linked := v.linked - 1, next := v.next + 1))
    case Take => v.hand.Elsewhere? && if mine then v.ingest > 0 && w == v.(ingest := v.ingest - 1, hand := Here) else w == v
    case ReadAcked => if mine then v.hand.Here? && w == v.(hand := if v.counter > 1 then Deleting else Adding) else w == v
    case Decide =>
      if !mine then w == v
      else if v.hand.Deleting? then w == v.(hand := Elsewhere, linked := 0)
      else v.hand.Adding? && w == v.(hand := Elsewhere, linked := if v.linked > 0 then v.linked else 1)
    case Give => if mine then v.next > 0 && w == v.(next := v.next - 1, send := v.send + 1) else w == v
    case SenderTake => !v.taken && !v.sending && if mine then v.send > 0 && w == v.(send := v.send - 1, taken := true) else w == v
    case SenderCheck => if mine then v.taken && !v.sending && w == v.(taken := false, sending := v.counter <= 1) else w == v
    case Dequeued => if mine then v.sending && !v.taken && w == v.(counter := v.counter - 1, sending := false) else w == v
  }

  /** The payload a step is about. */
  predicate About(s: State, step: Step, n: nat)
    requires Enabled(s, step)
  {
    match step
    case Buffer(m) => m == n
    case Choose(m) => m == n
    case MarkQueued(m) => m == n
    case MarkAcked(m) => m == n
    case Enqueue(m) => m == n
    case PopHead => s.list != [] && s.list[0] == n
    case Take => s.ingest[0] == n
    case ReadAcked => s.ingester.n == n
    case Decide => s.ingester.n == n
    case Give => s.next[0] == n
    case SenderTake => s.send[0] == n
    case SenderCheck => s.sender.n == n
    case Dequeued => s.sender.n == n
  }

  ghost predicate Tidy(s: State) {
    && s.counter.Keys == s.stage.Keys && |s.next| <= 1
  }

  predicate OfSendLoop(step: Step) {
    step.Buffer? || step.Choose? || step.MarkQueued? || step.MarkAcked? || step.Enqueue?
  }

  predicate OfIngester(step: Step) {
    step.PopHead? || step.Take? || step.ReadAcked? || step.Decide? || step.Give?
  }

  lemma SendLoopMoves(s: State, step: Step, n: nat)
    requires Enabled(s, step) && Tidy(s) && OfSendLoop(step)
    ensures Tidy(Apply(s, step)) && Moves(ViewOf(s, n), ViewOf(Apply(s, step), n), step, About(s, step, n))
  {
    if step.Enqueue? {
      CountSnoc(s.ingest, step.n, n);
    }
  }

  lemma PopMoves(s: State, n: nat)
    requires Enabled(s, PopHead) && Tidy(s)
    ensures Tidy(Apply(s, PopHead)) && Moves(ViewOf(s, n), ViewOf(Apply(s, PopHead), n), PopHead, About(s, PopHead, n))
  {
    if s.next == [] && s.list != [] {
      CountTail(s.list, n);
      CountSnoc([], s.list[0], n);
    }
  }

  lemma DeleteMoves(s: State, n: nat)
    requires Enabled(s, Decide) && Tidy(s) && s.ingester.acked
    ensures Tidy(Apply(s, Decide)) && Moves(ViewOf(s, n), ViewOf(Apply(s, Decide), n), Decide, About(s, Decide, n))
  {
    CountWithout(s.list, s.ingester.n, n);
  }

  lemma CountPushed(q: seq<nat>, x: nat, n: nat)
    ensures Count(Pushed(q, x), n) == if x == n && Count(q, n) == 0 then 1 else Count(q, n)
  {
    CountSnoc(q, x, n);
    CountIn(q, x);
  }

  lemma PushMoves(s: State, n: nat)
    requires Enabled(s, Decide) && Tidy(s) && !s.ingester.acked
    ensures Tidy(Apply(s, Decide)) && Moves(ViewOf(s, n), ViewOf(Apply(s, Decide), n), Decide, About(s, Decide, n))
  {
    CountPushed(s.list, s.ingester.n, n);
  }

  lemma GiveMoves(s: State, n: nat)
    requires Enabled(s, Give) && Tidy(s)
    ensures Tidy(Apply(s, Give)) && Moves(ViewOf(s, n), ViewOf(Apply(s, Give), n), Give, About(s, Give, n))
  {
    CountTail(s.next, n);
    CountSnoc(s.send, s.next[0], n);
    assert s.next[..1] == [s.next[0]];
  }

  lemma IngesterMoves(s: State, step: Step, n: nat)
    requires Enabled(s, step) && Tidy(s) && OfIngester(step)
    ensures Tidy(Apply(s, step)) && Moves(ViewOf(s, n), ViewOf(Apply(s, step), n), step, About(s, step, n))
  {
    match step
    case PopHead => PopMoves(s, n);
    case Take => CountTail(s.ingest, n);
    case ReadAcked =>
    case Decide =>
      if s.ingester.acked {
        DeleteMoves(s, n);
      } else {
        PushMoves(s, n);
      }
    case Give => GiveMoves(s, n);
  }

  lemma SenderMoves(s: State, step: Step, n: nat)
    requires Enabled(s, step) && Tidy(s) && !OfSendLoop(step) && !OfIngester(step)
    ensures Tidy(Apply(s, step)) && Moves(ViewOf(s, n), ViewOf(Apply(s, step), n), step, About(s, step, n))
  {
    if step.SenderTake? {
      CountTail(s.send, n);
    }
  }

  /** Every step changes the view of each payload as its own kind allows. */
  lemma StepMoves(s: State, step: Step, n: nat)
    requires Enabled(s, step) && Tidy(s)
    ensures Tidy(Apply(s, step)) && Moves(ViewOf(s, n), ViewOf(Apply(s, step), n), step, About(s, step, n))
  {
    if OfSendLoop(step) {
      SendLoopMoves(s, step, n);
    } else if OfIngester(step) {
      IngesterMoves(s, step, n);
    } else {
      SenderMoves(s, step, n);
    }
  }

  lemma MoveKeepsSound(v: View, w: View, step: Step, mine: bool)
    requires Sound(v) && Moves(v, w, step, mine)
    ensures Sound(w)
  {
  }

  // ---------------------------------------------------------------- every run

  ghost predicate Inv(s: State) {
    Tidy(s) && forall n: nat :: Sound(ViewOf(s, n))
  }

  lemma StepKeeps(s: State, step: Step)
    requires Inv(s) && Enabled(s, step)
    ensures Inv(Apply(s, step))
  {
    StepMoves(s, step, 0);
    forall n: nat ensures Sound(ViewOf(Apply(s, step), n)) {
      StepMoves(s, step, n);
      MoveKeepsSound(ViewOf(s, n), ViewOf(Apply(s, step), n), step, About(s, step, n));
    }
  }

  lemma {:induction false} RunKeeps(states: seq<State>, steps: seq<Step>, i: nat)
    requires IsRun(states, steps) && i < |states|
    ensures Inv(states[i])
  {
    if i > 0 {
      RunKeeps(states, steps, i - 1);
      StepKeeps(states[i - 1], steps[i - 1]);
    }
  }

  /** The counter of every payload is one of 0, 1, 2, 3, and it is above one exactly when the payload was acked. */
  lemma CounterInRange(states: seq<State>, steps: seq<Step>, i: nat, n: nat)
    requires IsRun(states, steps) && i < |states| && n in states[i].counter
    ensures 0 <= states[i].counter[n] <= 3
    ensures states[i].counter[n] > 1 <==> n !in states[i].held
  {
    RunKeeps(states, steps, i);
    assert Sound(ViewOf(states[i], n));
  }

  /** An unacked payload is in as many places as its counter says: none, or exactly one. */
  lemma UnackedInOnePlace(states: seq<State>, steps: seq<Step>, i: nat, n: nat)
    requires IsRun(states, steps) && i < |states| && n in states[i].held
    ensures n in states[i].counter && Places(ViewOf(states[i], n)) == states[i].counter[n] <= 1
  {
    RunKeeps(states, steps, i);
    assert Sound(ViewOf(states[i], n));
  }

  /** An acked payload that is linked, or about to be, has its removal on the way. */
  lemma AckedIsRemoved(states: seq<State>, steps: seq<Step>, i: nat, n: nat)
    requires IsRun(states, steps) && i < |states| && n in states[i].counter && n !in states[i].held
    requires n in states[i].list || states[i].ingester == Deciding(n, false)
    ensures RemovalPending(ViewOf(states[i], n))
  {
    RunKeeps(states, steps, i);
    assert Sound(ViewOf(states[i], n));
    CountIn(states[i].list, n);
  }

  predicate Drained(s: State) {
    s.ingest == [] && (s.ingester.Top? || s.ingester.Select?) && forall n :: n in s.stage ==> !s.stage[n].Removing?
  }

  /** Once all requests are through, the queue holds each payload once, and only unacked ones. */
  lemma DrainedHoldsUnacked(states: seq<State>, steps: seq<Step>, i: nat)
    requires IsRun(states, steps) && i < |states| && Drained(states[i])
    ensures forall k :: 0 <= k < |states[i].list| ==> states[i].list[k] in states[i].held
  {
    var s := states[i];
    RunKeeps(states, steps, i);
    forall k | 0 <= k < |s.list| ensures s.list[k] in s.held {
      var n := s.list[k];
      assert Sound(ViewOf(s, n));
      CountIn(s.list, n);
      CountIn(s.ingest, n);
    }
  }

  lemma CountTwice(q: seq<nat>, a: nat, b: nat)
    requires a < b < |q| && q[a] == q[b]
    ensures Count(q, q[a]) >= 2
  {
    assert q == q[..b] + q[b..];
    assert multiset(q) == multiset(q[..b]) + multiset(q[b..]);
    assert q[..b][a] == q[a] && q[b..][0] == q[a];
    CountIn(q[..b], q[a]);
    CountIn(q[b..], q[a]);
  }

  /** The queue never holds a payload twice. */
  lemma LinkedOnce(states: seq<State>, steps: seq<Step>, i: nat, a: nat, b: nat)
    requires IsRun(states, steps) && i < |states| && a < b < |states[i].list|
    ensures states[i].list[a] != states[i].list[b]
  {
    RunKeeps(states, steps, i);
    assert Sound(ViewOf(states[i], states[i].list[a]));
    if states[i].list[a] == states[i].list[b] {
      CountTwice(states[i].list, a, b);
    }
  }
}
