/** Finite schedules of a circuit, and the states runs reach. */
module CircuitPaths {
  import opened Circuit

  /** The steps lead from `s` to `t`. */
  ghost predicate Path(c: Config, s: State, steps: seq<Step>, t: State)
    decreases |steps|
  {
    if steps == [] then s == t
    else Enabled(c, s, steps[0]) && Path(c, Apply(c, s, steps[0]), steps[1..], t)
  }

  lemma {:induction false} PathStep(c: Config, s: State, step: Step, rest: seq<Step>, t: State)
    requires Enabled(c, s, step) && Path(c, Apply(c, s, step), rest, t)
    ensures Path(c, s, [step] + rest, t)
  {
    assert ([step] + rest)[1..] == rest;
  }

  lemma {:induction false} PathJoins(c: Config, s: State, a: seq<Step>, t: State, b: seq<Step>, u: State)
    requires Path(c, s, a, t) && Path(c, t, b, u)
    ensures Path(c, s, a + b, u)
    decreases |a|
  {
    if a == [] {
      assert a + b == b;
    } else {
      PathJoins(c, Apply(c, s, a[0]), a[1..], t, b, u);
      assert (a + b)[1..] == a[1..] + b;
    }
  }

  lemma OneStep(c: Config, s: State, step: Step) returns (steps: seq<Step>)
    requires Enabled(c, s, step)
    ensures Path(c, s, steps, Apply(c, s, step))
  {
    var t := Apply(c, s, step);
    assert Path(c, t, [], t);
    PathStep(c, s, step, [], t);
    steps := [step] + [];
  }

  lemma {:induction false} PathSnoc(c: Config, s: State, steps: seq<Step>, t: State, step: Step)
    requires Path(c, s, steps, t) && Enabled(c, t, step)
    ensures Path(c, s, steps + [step], Apply(c, t, step))
  {
    var u := Apply(c, t, step);
    assert Path(c, u, [], u);
    PathStep(c, t, step, [], u);
    assert [step] + [] == [step];
    PathJoins(c, s, steps, t, [step], u);
  }

  /** Some run leads to `s`. */
  ghost predicate Reachable(c: Config, s: State) {
    exists states, steps :: IsRun(c, states, steps) && s in states
  }

  lemma RunGrows(c: Config, states: seq<State>, steps: seq<Step>, step: Step)
    requires IsRun(c, states, steps) && Enabled(c, states[|steps|], step)
    ensures IsRun(c, states + [Apply(c, states[|steps|], step)], steps + [step])
  {
    var s, t := states + [Apply(c, states[|steps|], step)], steps + [step];
    forall i | 0 <= i < |t| ensures Enabled(c, s[i], t[i]) && s[i + 1] == Apply(c, s[i], t[i]) {
      if i < |steps| {
        assert s[i] == states[i] && s[i + 1] == states[i + 1] && t[i] == steps[i];
      }
    }
  }

  /** A schedule from the initial state is a run. */
  lemma {:induction false} PathIsRun(c: Config, steps: seq<Step>, t: State) returns (states: seq<State>)
    requires Path(c, Init(c), steps, t)
    ensures IsRun(c, states, steps) && states[|steps|] == t
  {
    states := Extended(c, [Init(c)], [], steps, t);
    assert [] + steps == steps;
  }

  lemma {:induction false} Extended(c: Config, states: seq<State>, before: seq<Step>, steps: seq<Step>, t: State) returns (all: seq<State>)
    requires IsRun(c, states, before) && Path(c, states[|before|], steps, t)
    ensures IsRun(c, all, before + steps) && all[|before + steps|] == t
    decreases |steps|
  {
    if steps == [] {
      all := states;
      assert before + steps == before;
    } else {
      RunGrows(c, states, before, steps[0]);
      var next := Apply(c, states[|before|], steps[0]);
      all := Extended(c, states + [next], before + [steps[0]], steps[1..], t);
      assert before + steps == (before + [steps[0]]) + steps[1..];
    }
  }

  lemma {:induction false} PathReaches(c: Config, steps: seq<Step>, t: State)
    requires Path(c, Init(c), steps, t)
    ensures Reachable(c, t)
  {
    var states := PathIsRun(c, steps, t);
    assert t in states;
  }

  /** What a schedule leads to from a reachable state is reachable. */
  lemma {:induction false} ReachesOn(c: Config, s: State, steps: seq<Step>, t: State)
    requires Reachable(c, s) && Path(c, s, steps, t)
    ensures Reachable(c, t)
  {
    var states, run :| IsRun(c, states, run) && s in states;
    var i: nat :| i < |states| && states[i] == s;
    RunCut(c, states, run, i);
    var all := Extended(c, states[..i + 1], run[..i], steps, t);
    assert t in all;
  }

  lemma RunCut(c: Config, states: seq<State>, steps: seq<Step>, i: nat)
    requires IsRun(c, states, steps) && i < |states|
    ensures IsRun(c, states[..i + 1], steps[..i])
  {
  }

  lemma InitReaches(c: Config)
    ensures Reachable(c, Init(c))
  {
    assert IsRun(c, [Init(c)], []);
  }
}
