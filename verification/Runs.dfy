// Building runs step by step.
module Runs {
  import opened Protocol

  // Some run leads from s to s'; the steps are given.
  ghost predicate Leads(s: State, steps: seq<Step>, s': State)
    decreases |steps|
  {
    if steps == [] then s' == s
    else Enabled(s, steps[0]) && Leads(Apply(s, steps[0]), steps[1..], s')
  }

  lemma One(s: State, step: Step)
    requires Enabled(s, step)
    ensures Leads(s, [step], Apply(s, step))
  {
    assert [step][1..] == [];
  }

  lemma {:induction false} Join(s: State, a: seq<Step>, s1: State, b: seq<Step>, s2: State)
    requires Leads(s, a, s1) && Leads(s1, b, s2)
    ensures Leads(s, a + b, s2)
    decreases |a|
  {
    if a == [] {
      assert a + b == b;
    } else {
      Join(Apply(s, a[0]), a[1..], s1, b, s2);
      assert (a + b)[1..] == a[1..] + b;
    }
  }

  // Such steps are a run in the sense of the machine.
  lemma {:induction false} AsRun(s: State, steps: seq<Step>, s': State) returns (ss: seq<State>)
    requires Leads(s, steps, s')
    ensures IsRun(ss, steps) && ss[0] == s && ss[|steps|] == s'
    decreases |steps|
  {
    if steps == [] {
      ss := [s];
    } else {
      var rest := AsRun(Apply(s, steps[0]), steps[1..], s');
      ss := [s] + rest;
      forall i | 0 <= i < |steps|
        ensures Enabled(ss[i], steps[i]) && ss[i + 1] == Apply(ss[i], steps[i])
      {
        if i > 0 {
          assert Enabled(rest[i - 1], steps[1..][i - 1]);
        }
      }
    }
  }

  // ---------- what no step changes ----------

  lemma {:induction false} SameNodes(ss: seq<State>, steps: seq<Step>, b: nat, j: nat, a: Addr)
    requires IsRun(ss, steps) && b <= j < |ss| && a in ss[b].nodes
    ensures a in ss[j].nodes && ss[j].nodes[a].caching == ss[b].nodes[a].caching
    decreases j - b
  {
    if b < j {
      SameNode(ss[b], steps[b], a);
      SameNodes(ss, steps, b + 1, j, a);
    }
  }

  lemma SameNode(s: State, step: Step, a: Addr)
    requires Enabled(s, step) && a in s.nodes
    ensures a in Apply(s, step).nodes && Apply(s, step).nodes[a].caching == s.nodes[a].caching
  {
    if step.Run? {
      var m := Next(s.nodes[s.tasks[step.t].node], step.t, s.tasks[step.t], step.input);
      CachingStays(s.nodes[s.tasks[step.t].node], step.t, s.tasks[step.t], step.input, m);
    }
  }

  lemma CachingStays(nd: Node, t: Tid, task: Task, inp: Input, m: Move)
    requires m == Next(nd, t, task, inp) && m.Move?
    ensures m.node.caching == nd.caching
  {
    if InDo(task.pc) {
    } else if InLock(task.pc) {
    } else if task.pc.FanOut? {
    } else if task.op.Get? {
    } else {
      assert m.node == nd;
    }
  }

  // The same for steps that are given.
  lemma {:induction false} CachingKept(s: State, steps: seq<Step>, s': State, a: Addr)
    requires Leads(s, steps, s') && a in s.nodes
    ensures a in s'.nodes && s'.nodes[a].caching == s.nodes[a].caching
    decreases |steps|
  {
    if steps != [] {
      SameNode(s, steps[0], a);
      CachingKept(Apply(s, steps[0]), steps[1..], s', a);
    }
  }
}
