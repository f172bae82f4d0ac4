/**
 Write deadlines of a circuit's write adapter: setting and clearing a deadline, timers that may
 fire late and outlive the deadline they were made for, and a done channel that is replaced
 when a closed one must be open again. Each method body runs under the adapter's lock.
 Channels are numbered in the order they are made.
 */
module WriteDeadline {
  import opened Bytes

  datatype Adapter = Adapter(
    deadline: Option<int>,
    done: nat,                   // the current channel
    doneClosed: bool,
    closed: seq<nat>,            // every close() so far, in order
    timers: multiset<int>)       // AfterFunc timers that have not fired, by the deadline they carry

  const NEW_ADAPTER := Adapter(None, 0, false, [], multiset{})

  /** An open channel is wanted: make a new one if the current one is closed. */
  function Reopened(a: Adapter): Adapter {
    if a.doneClosed then a.(done := a.done + 1, doneClosed := false) else a
  }

  function Closed(a: Adapter): Adapter {
    if a.doneClosed then a else a.(closed := a.closed + [a.done], doneClosed := true)
  }

  function SetDeadline(a: Adapter, t: Option<int>, now: int): Adapter {
    var b := a.(deadline := t);
    if t.None? then Reopened(b)
    else if t.value > now then Reopened(b).(timers := b.timers + multiset{t.value})
    else Closed(b)
  }

  function Fired(a: Adapter, t: int): Adapter {
    var b := a.(timers := a.timers - multiset{t});
    if a.deadline == Some(t) then Closed(b) else b
  }

  // ---------------------------------------------------------------- the adapter itself

  class WriteAdapter {
    var deadline: Option<int>
    var doneNotify: nat
    var doneNotifyClosed: bool
    ghost var closed: seq<nat>
    ghost var timers: multiset<int>

    ghost function State(): Adapter
      reads this
    {
      Adapter(deadline, doneNotify, doneNotifyClosed, closed, timers)
    }

    constructor ()
      ensures State() == NEW_ADAPTER
    {
      deadline, doneNotify, doneNotifyClosed := None, 0, false;
      closed, timers := [], multiset{};
    }

    method SetWriteDeadline(t: Option<int>, now: int)
      modifies this
      ensures State() == SetDeadline(old(State()), t, now)
    {
      deadline := t;
      if t == None {
        if doneNotifyClosed {
          doneNotify, doneNotifyClosed := doneNotify + 1, false;
        }
        return;
      }
      var d := t.value - now;
      if d > 0 {
        if doneNotifyClosed {
          doneNotify, doneNotifyClosed := doneNotify + 1, false;
        }
        timers := timers + multiset{t.value};
      } else {
        if !doneNotifyClosed {
          closed := closed + [doneNotify];
          doneNotifyClosed := true;
        }
      }
    }

    /** The function handed to AfterFunc. */
    method OnTimer(t: int)
      modifies this
      ensures State() == Fired(old(State()), t)
    {
      timers := timers - multiset{t};
      if deadline == Some(t) {
        if !doneNotifyClosed {
          closed := closed + [doneNotify];
          doneNotifyClosed := true;
        }
      }
    }
  }

  // ---------------------------------------------------------------- every run

  datatype Step =
    | Set(deadline: Option<int>)
    | Fire(t: int)
    | Tick(now: int)

  datatype State = State(adapter: Adapter, now: int)

  predicate Enabled(s: State, step: Step) {
    match step
    case Set(t) => true
    case Fire(t) => t in s.adapter.timers && t <= s.now    // never early, possibly late
    case Tick(now) => now >= s.now
  }

  function Apply(s: State, step: Step): State {
    match step
    case Set(t) => s.(adapter := SetDeadline(s.adapter, t, s.now))
    case Fire(t) => s.(adapter := Fired(s.adapter, t))
    case Tick(now) => s.(now := now)
  }

  ghost predicate IsRun(states: seq<State>, steps: seq<Step>) {
    && |states| == |steps| + 1 && states[0].adapter == NEW_ADAPTER
    && forall i :: 0 <= i < |steps| ==> Enabled(states[i], steps[i]) && states[i + 1] == Apply(states[i], steps[i])
  }

  predicate Past(deadline: Option<int>, now: int) {
    deadline.Some? && deadline.value <= now
  }

  /** Channels are closed in the order they are made, each once, and all but the current one are closed. */
  predicate ClosedOnce(a: Adapter) {
    && |a.closed| == a.done + (if a.doneClosed then 1 else 0)
    && forall i :: 0 <= i < |a.closed| ==> a.closed[i] == i
  }

  ghost predicate Inv(s: State) {
    && ClosedOnce(s.adapter)
    && (s.adapter.doneClosed ==> Past(s.adapter.deadline, s.now))
    && (!s.adapter.doneClosed && s.adapter.deadline.Some? ==> s.adapter.deadline.value in s.adapter.timers)
  }

  lemma ReopenKeeps(a: Adapter)
    requires ClosedOnce(a)
    ensures ClosedOnce(Reopened(a)) && ClosedOnce(Closed(a))
  {
  }

  lemma SetKeeps(s: State, t: Option<int>)
    requires Inv(s)
    ensures Inv(Apply(s, Set(t)))
  {
    ReopenKeeps(s.adapter.(deadline := t));
  }

  /** A timer that is not the current deadline's changes nothing but itself. */
  lemma FireKeeps(s: State, t: int)
    requires Inv(s) && Enabled(s, Fire(t))
    ensures Inv(Apply(s, Fire(t)))
  {
    ReopenKeeps(s.adapter.(timers := s.adapter.timers - multiset{t}));
  }

  lemma StepKeeps(s: State, step: Step)
    requires Inv(s) && Enabled(s, step)
    ensures Inv(Apply(s, step))
  {
    match step
    case Set(t) => SetKeeps(s, t);
    case Fire(t) => FireKeeps(s, t);
    case Tick(_) =>
  }

  lemma {:induction false} RunKeeps(states: seq<State>, steps: seq<Step>, i: nat)
    requires IsRun(states, steps) && i < |states|
    ensures Inv(states[i])
  {
    if i > 0 {
      RunKeeps(states, steps, i - 1);
      StepKeeps(states[i - 1], steps[i - 1]);
    }
  }

  /** Done is closed only for a deadline that is set and past; open with a deadline, a timer for exactly that deadline is still to fire. */
  lemma DoneIsExact(states: seq<State>, steps: seq<Step>, i: nat)
    requires IsRun(states, steps) && i < |states|
    ensures var a := states[i].adapter;
            && (a.doneClosed <==> a.done in a.closed)
            && (a.done in a.closed ==> Past(a.deadline, states[i].now))
            && (a.done !in a.closed && a.deadline.Some? ==> a.deadline.value in a.timers)
  {
    RunKeeps(states, steps, i);
    var a := states[i].adapter;
    if a.doneClosed {
      assert a.closed[a.done] == a.done;
    }
  }

  /** The deadline set last before step `i`; none before the first. */
  function LastSet(steps: seq<Step>, i: nat): Option<int>
    requires i <= |steps|
  {
    if i == 0 then None else if steps[i - 1].Set? then steps[i - 1].deadline else LastSet(steps, i - 1)
  }

  /** In every state of every run the adapter's deadline is the one set last, whatever fired since. */
  lemma {:induction false} DeadlineIsLastSet(states: seq<State>, steps: seq<Step>, i: nat)
    requires IsRun(states, steps) && i < |states|
    ensures states[i].adapter.deadline == LastSet(steps, i)
  {
    if i > 0 {
      DeadlineIsLastSet(states, steps, i - 1);
    }
  }

  /** Once every due timer has fired, done is closed exactly when the deadline set last is past. */
  lemma {:induction false} SettledDoneIsExact(states: seq<State>, steps: seq<Step>, i: nat)
    requires IsRun(states, steps) && i < |states|
    requires forall t :: t in states[i].adapter.timers ==> t > states[i].now
    ensures states[i].adapter.doneClosed <==> Past(LastSet(steps, i), states[i].now)
  {
    RunKeeps(states, steps, i);
    DeadlineIsLastSet(states, steps, i);
  }

  /** Right after a deadline was set, done is closed exactly when it is past, also with stale timers still to fire. */
  lemma SetTakesEffect(states: seq<State>, steps: seq<Step>, i: nat)
    requires IsRun(states, steps) && i < |steps| && steps[i].Set?
    ensures states[i + 1].adapter.doneClosed <==> Past(steps[i].deadline, states[i + 1].now)
    ensures states[i + 1].adapter.doneClosed <==> states[i + 1].adapter.done in states[i + 1].adapter.closed
  {
    DoneIsExact(states, steps, i + 1);
    DeadlineIsLastSet(states, steps, i + 1);
  }

  /** A timer closes done if and only if it was made for the deadline set last. */
  lemma FireTakesEffect(states: seq<State>, steps: seq<Step>, i: nat)
    requires IsRun(states, steps) && i < |steps| && steps[i].Fire?
    ensures LastSet(steps, i) == Some(steps[i].t) ==> states[i + 1].adapter.doneClosed
    ensures LastSet(steps, i) != Some(steps[i].t) ==> states[i + 1].adapter.doneClosed == states[i].adapter.doneClosed
  {
    DeadlineIsLastSet(states, steps, i);
  }

  /** No channel is ever closed twice, and each one was closed before it was replaced. */
  lemma ChannelsCloseOnce(states: seq<State>, steps: seq<Step>, i: nat)
    requires IsRun(states, steps) && i < |states|
    ensures var a := states[i].adapter;
            && (forall x, y :: 0 <= x < y < |a.closed| ==> a.closed[x] != a.closed[y])
            && (forall c: nat :: c < a.done ==> c in a.closed)
  {
    RunKeeps(states, steps, i);
    var a := states[i].adapter;
    forall c: nat | c < a.done ensures c in a.closed {
      assert a.closed[c] == c;
    }
  }
}
