/** The retransmit pipeline never gets stuck: left to itself it takes everything through and gives every unacked payload back. */
module RetransmitProgress {
  import opened RetransmitQueue
  import opened RetransmitPipeline

  /** Steps of the pipeline itself; nothing new is buffered, chosen or acked. */
  predicate OfPipeline(step: Step) {
    !step.Buffer? && !step.Choose? && !step.MarkAcked?
  }

  function At(stage: map<nat, Stage>, selected: bool): set<nat> {
    set n | n in stage && (if selected then stage[n].Selected? else stage[n].Marked? || stage[n].Removing?)
  }

  /** Nothing is under way. */
  predicate AtRest(s: State) {
    && At(s.stage, true) == {} && At(s.stage, false) == {}
    && s.ingest == [] && s.ingester.Select? && s.list == [] && s.next == [] && s.send == [] && s.sender.Waiting?
  }

  /** The ingester waits with an empty hand only if its queue is empty. */
  predicate Popped(s: State) {
    s.ingester.Select? && s.next == [] ==> s.list == []
  }

  lemma PoppedStep(s: State, step: Step)
    requires Popped(s) && Enabled(s, step)
    ensures Popped(Apply(s, step))
  {
  }

  lemma {:induction false} RunIsPopped(states: seq<State>, steps: seq<Step>, i: nat)
    requires IsRun(states, steps) && i < |states|
    ensures Popped(states[i])
  {
    if i > 0 {
      RunIsPopped(states, steps, i - 1);
      PoppedStep(states[i - 1], steps[i - 1]);
    }
  }

  // ---------------------------------------------------------------- no deadlock

  lemma HandIsKnown(s: State, n: nat)
    requires Inv(s)
    ensures s.ingester == Got(n) || s.sender == Took(n) || s.sender == Sending(n) ==> n in s.counter
  {
    assert Sound(ViewOf(s, n));
  }

  /** Unless everything is at rest, some step of the pipeline can be taken. */
  lemma NeverStuck(s: State) returns (step: Step)
    requires Inv(s) && Popped(s) && !AtRest(s)
    ensures OfPipeline(step) && Enabled(s, step)
  {
    if !s.sender.Waiting? {
      HandIsKnown(s, s.sender.n);
      step := if s.sender.Took? then SenderCheck else RetransmitPipeline.Dequeued;
    } else if s.send != [] {
      step := SenderTake;
    } else {
      step := IngesterGoesOn(s);
    }
  }

  lemma IngesterGoesOn(s: State) returns (step: Step)
    requires Inv(s) && Popped(s) && !AtRest(s) && s.sender.Waiting? && s.send == []
    ensures OfPipeline(step) && Enabled(s, step)
  {
    match s.ingester
    case Top => step := PopHead;
    case Got(n) =>
      HandIsKnown(s, n);
      step := ReadAcked;
    case Deciding(_, _) => step := Decide;
    case Select =>
      if s.ingest != [] {
        step := Take;
      } else if s.next != [] {
        step := Give;
      } else if n :| n in At(s.stage, true) {
        step := MarkQueued(n);
      } else {
        var n :| n in At(s.stage, false);
        step := Enqueue(n);
      }
  }

  // ---------------------------------------------------------------- it ends

  function IngesterWork(i: Ingester): nat {
    match i
    case Top => 1
    case Select => 0
    case Got(_) => 17
    case Deciding(_, _) => 16
  }

  function SenderWork(x: Sender): nat {
    match x
    case Waiting => 0
    case Took(_) => 6
    case Sending(_) => 5
  }

  /** Every place is nearer to the end than the one before it. */
  function Work(s: State): nat {
    22 * |At(s.stage, true)| + 20 * |At(s.stage, false)| + 18 * |s.ingest| + IngesterWork(s.ingester)
    + 12 * |s.list| + 10 * |s.next| + 7 * |s.send| + SenderWork(s.sender)
  }

  lemma {:induction false} WithoutShrinks(list: seq<nat>, n: nat)
    ensures |Without(list, n)| <= |list|
  {
    if list != [] {
      WithoutShrinks(list[1..], n);
    }
  }

  lemma StageMoves(stage: map<nat, Stage>, n: nat)
    requires n in stage
    ensures stage[n].Selected? ==> At(stage[n := Marked], true) == At(stage, true) - {n} && At(stage[n := Marked], false) == At(stage, false) + {n}
    ensures stage[n].Marked? || stage[n].Removing? ==>
              At(stage[n := Resting], true) == At(stage, true) && At(stage[n := Resting], false) == At(stage, false) - {n}
    ensures n in At(stage, true) <==> stage[n].Selected?
    ensures n in At(stage, false) <==> stage[n].Marked? || stage[n].Removing?
  {
  }

  lemma SendLoopWorks(s: State, step: Step)
    requires Enabled(s, step) && (step.MarkQueued? || step.Enqueue?)
    ensures Work(Apply(s, step)) < Work(s)
  {
    StageMoves(s.stage, step.n);
  }

  /** Each of its steps leaves the pipeline less to do. */
  lemma WorkDecreases(s: State, step: Step)
    requires Tidy(s) && Enabled(s, step) && OfPipeline(step)
    ensures Work(Apply(s, step)) < Work(s)
  {
    match step
    case MarkQueued(_) => SendLoopWorks(s, step);
    case Enqueue(_) => SendLoopWorks(s, step);
    case Decide => WithoutShrinks(s.list, s.ingester.n);
    case _ =>
  }

  lemma RunGrows(states: seq<State>, steps: seq<Step>, step: Step)
    requires IsRun(states, steps) && Enabled(states[|steps|], step)
    ensures IsRun(states + [Apply(states[|steps|], step)], steps + [step])
  {
    var s, t := states + [Apply(states[|steps|], step)], steps + [step];
    forall i | 0 <= i < |t| ensures Enabled(s[i], t[i]) && s[i + 1] == Apply(s[i], t[i]) {
      if i < |steps| {
        assert s[i] == states[i] && s[i + 1] == states[i + 1] && t[i] == steps[i];
      }
    }
  }

  lemma RestIsFree(states: seq<State>, steps: seq<Step>, i: nat, n: nat)
    requires IsRun(states, steps) && i < |states| && AtRest(states[i]) && n in states[i].held
    ensures n in states[i].counter && states[i].counter[n] == 0
  {
    UnackedInOnePlace(states, steps, i, n);
    var s := states[i];
    if n in s.stage {
      StageMoves(s.stage, n);
    }
  }

  /**
   Every run can go on by steps of the pipeline alone until nothing is under way. Every unacked
   payload is then free to be retransmitted again.
   */
  lemma {:induction false} PipelineDrains(states: seq<State>, steps: seq<Step>) returns (all: seq<State>, more: seq<Step>)
    requires IsRun(states, steps)
    ensures IsRun(all, steps + more) && forall i :: 0 <= i < |more| ==> OfPipeline(more[i])
    ensures var t := all[|steps + more|]; AtRest(t) && forall n :: n in t.held ==> n in t.counter && t.counter[n] == 0
    decreases Work(states[|steps|])
  {
    var s := states[|steps|];
    if AtRest(s) {
      all, more := states, [];
      assert steps + more == steps;
      forall n | n in s.held ensures n in s.counter && s.counter[n] == 0 {
        RestIsFree(states, steps, |steps|, n);
      }
    } else {
      RunKeeps(states, steps, |steps|);
      RunIsPopped(states, steps, |steps|);
      var step := NeverStuck(s);
      RunGrows(states, steps, step);
      WorkDecreases(s, step);
      var rest;
      all, rest := PipelineDrains(states + [Apply(s, step)], steps + [step]);
      more := [step] + rest;
      assert steps + more == (steps + [step]) + rest;
    }
  }
}
