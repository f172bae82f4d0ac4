/** What becomes of a Write that fails. */
module CircuitFailures {
  import opened Bytes
  import opened Circuit
  import opened CircuitTheorems
  import opened CircuitWedge
  import opened Segmentation

  /** The write in progress fails: a chunk cannot be built, or the chunk being offered never enters the send buffer. */
  predicate WriteFails(s: State, step: Step) {
    step.CutFails? || (step.Burn? && s.w.current == Some(step.n))
  }

  /** The log has only grown, and nothing burned has come back. */
  ghost predicate Grows(w: Writer, v: Writer) {
    w.log <= v.log && w.burned <= v.burned
  }

  lemma GrowsOn(u: Writer, v: Writer, w: Writer)
    requires Grows(u, v) && Grows(v, w)
    ensures Grows(u, w)
  {
  }

  lemma NextGrows(c: Config, s: State, step: Step)
    requires Enabled(c, s, step)
    ensures Grows(s.w, Apply(c, s, step).w)
  {
    LogGrows(c, s, step);
    forall n | n in s.w.burned ensures n in Apply(c, s, step).w.burned {
      StaysBurned(c, s, step, n);
    }
  }

  lemma RunGrowing(c: Config, states: seq<State>, steps: seq<Step>)
    requires IsRun(c, states, steps)
    ensures forall k :: 0 <= k < |steps| ==> Grows(states[k].w, states[k + 1].w)
  {
    forall k | 0 <= k < |steps| ensures Grows(states[k].w, states[k + 1].w) {
      NextGrows(c, states[k], steps[k]);
    }
  }

  lemma {:induction false} LaterGrows(states: seq<State>, i: nat, j: nat)
    requires i <= j < |states| && forall k :: 0 <= k < |states| - 1 ==> Grows(states[k].w, states[k + 1].w)
    ensures Grows(states[i].w, states[j].w)
    decreases j - i
  {
    if i < j {
      LaterGrows(states, i, j - 1);
      assert Grows(states[j - 1].w, states[j - 1 + 1].w);
      GrowsOn(states[i].w, states[j - 1].w, states[j].w);
    }
  }

  lemma FailureLeaves(c: Config, s: State, step: Step)
    requires Enabled(c, s, step) && WriteFails(s, step)
    ensures var v := Apply(c, s, step).w;
            v.writing.None? && v.current.None? && v.written == AllButLast(s.w.written) && v.burned != {}
  {
    assert (if step.CutFails? then |s.w.log| else step.n) in Apply(c, s, step).w.burned;
  }

  /** What was replayed of a longer log without reaching a burned number was in the log when the number was burned. */
  lemma PrefixAt(w: Writer, v: Writer, k: nat)
    requires Prefixed(w) && w.log <= v.log && w.writing.None? && w.current.None?
    requires k <= |w.log| && Unburned(w.burned, k)
    ensures DataOf(Replay(v.log[..k]).out) <= w.written
  {
    assert v.log[..k] == w.log[..k];
    assert PrefixedAt(w, k);
  }

  /** A write that fails leaves a burned number, so in no later state of any run has its message, or any later one, reached the peer. */
  lemma FailedIsNeverDelivered(c: Config, states: seq<State>, steps: seq<Step>, i: nat, j: nat)
    requires ValidConfig(c) && IsRun(c, states, steps) && i < j < |states| && WriteFails(states[i], steps[i])
    ensures DataOf(states[j].consumer.out) <= AllButLast(states[i].w.written)
  {
    RunKeeps(c, states, steps, i + 1);
    RunKeeps(c, states, steps, j);
    RunGrowing(c, states, steps);
    LaterGrows(states, i + 1, j);
    FailureLeaves(c, states[i], steps[i]);
    var k := ReplayedPrefix(c, states[j]);
    BurnedIsInLog(c, states[i + 1], k);
    PrefixAt(states[i + 1].w, states[j].w, k);
  }

  lemma BurnedIsInLog(c: Config, s: State, k: nat)
    requires Inv(c, s) && s.w.burned != {} && Unburned(s.w.burned, k)
    ensures k <= |s.w.log|
  {
    var n :| n in s.w.burned;
  }
}
