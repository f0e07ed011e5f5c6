// What RemoveKeys does not reach: a peer that owns some key of the batch is sent its own keys only
// and is left out of the broadcast, so its copies of the other keys survive the removal.
module BatchGap {
  import opened Views
  import opened Protocol
  import Flights
  import Quiet
  import Runs
  import opened Broadcast

  // The step neither sorts the key to address a nor lists a client there that is not an owner.
  ghost predicate Skips(s: State, step: Step, t: Tid, aim: Aim, a: Addr) {
    && (SortsKey(s, step, t, aim) ==>
          RemoteOwner(s.nodes[aim.origin], aim.key).Some? ==>
            RemoteOwner(s.nodes[aim.origin], aim.key).value.address != a)
    && (ListsBatch(s, step, t, aim) ==>
          forall c :: c in Others(s.nodes[aim.origin]) && c.address == a ==> c in s.tasks[t].pc.fan.owners)
    && LeavesCopy(s, step, aim, a)
  }

  // Neither an eviction nor a Get that finds the copy expired drops the copy at address a.
  ghost predicate LeavesCopy(s: State, step: Step, aim: Aim, a: Addr) {
    && (step.Evict? ==> step.node != a || step.key != aim.key)
    && (step.Run? && step.t in s.tasks && s.tasks[step.t].node == a && a in s.nodes
        && Quiet.IsGet(s.tasks[step.t].op, aim.key) ==>
          var m := Next(s.nodes[a], step.t, s.tasks[step.t], step.input);
          m.Move? ==> Quiet.SameAt(s.nodes[a], m.node, aim.key))
  }

  // ---------- one move of the removal ----------

  ghost predicate GapMove(nd: Node, task: Task, inp: Input, m: Move, a: Addr, aim: Aim)
    requires m.Move? && task.op.RemoveKeys?
  {
    && m.task.op == task.op && m.task.node == task.node
    && (m.spawn.Some? && m.spawn.value.node == a && Serves(m.spawn.value.op, a, aim) ==> Owed(task.pc, a, aim))
    && (Owed(m.task.pc, a, aim) ==>
          || Owed(task.pc, a, aim)
          || (task.pc.Sort? && task.pc.i < |task.op.keys| && task.op.keys[task.pc.i] == aim.key && inp.Go?
              && RemoteOwner(nd, aim.key).Some? && RemoteOwner(nd, aim.key).value.address == a)
          || (task.pc.FanOut? && !task.pc.fan.listed && inp.Go?
              && exists c :: c in Others(nd) && c.address == a && c !in task.pc.fan.owners))
  }

  lemma NextIsGapMove(nd: Node, t: Tid, task: Task, inp: Input, m: Move, a: Addr, aim: Aim)
    requires m == Next(nd, t, task, inp) && m.Move? && task.op.RemoveKeys?
    requires Flights.Shape(task.op, task.pc) && Flights.LockFits(task.op, task.pc)
    ensures GapMove(nd, task, inp, m, a, aim)
  {
    if InLock(task.pc) {
      LockIsGapMove(nd, t, task, m, a, aim);
    } else if task.pc.FanOut? {
      FanIsGapMove(nd, task, inp, m, a, aim);
    } else {
      SortIsGapMove(nd, task, m, a, aim);
    }
  }

  lemma BatchTakenOver(rest: seq<Key>, batch: map<Client, seq<Key>>, a: Addr, aim: Aim)
    requires Owed(EraseNext(rest, Some(batch)), a, aim)
    ensures BatchOwes(batch, a, aim)
  {
    if rest == [] {
      var p :| p in OwnerParcels(batch) && p.to.address == a && Serves(p.msg, a, aim);
      assert p.to in batch;
    }
  }

  lemma LockIsGapMove(nd: Node, t: Tid, task: Task, m: Move, a: Addr, aim: Aim)
    requires InLock(task.pc) && m == Critical(nd, t, task) && m.Move? && task.op.RemoveKeys?
    requires Flights.LockFits(task.op, task.pc)
    ensures GapMove(nd, task, Go, m, a, aim)
  {
    if task.pc.Release? && Owed(m.task.pc, a, aim) {
      BatchTakenOver(task.pc.next.rest, task.pc.next.batch.value, a, aim);
    }
  }

  lemma SortIsGapMove(nd: Node, task: Task, m: Move, a: Addr, aim: Aim)
    requires task.op.RemoveKeys? && !task.pc.FanOut? && !InLock(task.pc) && m == NextRemoveKeys(nd, task) && m.Move?
    ensures GapMove(nd, task, Go, m, a, aim)
  {
    if task.pc.Sort? && Owed(m.task.pc, a, aim) {
      if m.task.pc.Sort? {
        var b', b := m.task.pc.batch, task.pc.batch;
        var c :| c in b' && c.address == a && aim.key in b'[c];
        assert (c in b && aim.key in b[c]) || RemoteOwner(nd, task.op.keys[task.pc.i]) == Some(c);
      } else {
        BatchTakenOver(if nd.caching then task.op.keys else [], task.pc.batch, a, aim);
      }
    }
  }

  lemma FanIsGapMove(nd: Node, task: Task, inp: Input, m: Move, a: Addr, aim: Aim)
    requires task.pc.FanOut? && m == NextFan(nd, task, inp) && m.Move? && task.op.RemoveKeys?
    ensures GapMove(nd, task, inp, m, a, aim)
  {
    if m.task.pc.FanOut? && FanOwes(m.task.pc.fan, a, aim) {
      var f, f' := task.pc.fan, m.task.pc.fan;
      if p :| p in f'.todo && p.to.address == a && Serves(p.msg, a, aim) {
        assert p in f.todo || (inp.Go? && p in BroadcastParcels(nd, task.op.keys, f.owners));
      } else {
        var c :| c in f'.out && f'.out[c].to.address == a && Serves(f'.out[c].msg, a, aim);
        assert (c in f.out && f.out[c] == f'.out[c]) || (inp.Dispatch? && f'.out[c] in f.todo);
      }
    }
  }

  // ---------- the invariant ----------

  // No request for the key is at address a or on its way there, and the copies there are those of nd.
  ghost predicate Spared(s: State, t: Tid, before: set<Tid>, aim: Aim, a: Addr, nd: Node) {
    && before <= s.tasks.Keys && aim.view.None? && a != aim.origin
    && (forall u :: u in s.tasks && u !in before && s.tasks[u].node == a ==> !Serves(s.tasks[u].op, a, aim))
    && t in s.tasks && s.tasks[t].op.RemoveKeys? && Starts(s.tasks[t].op, s.tasks[t].node, aim)
    && !Owed(s.tasks[t].pc, a, aim)
    && a in s.nodes && Quiet.SameAt(nd, s.nodes[a], aim.key)
  }

  lemma RemovalSteps(s: State, t: Tid, inp: Input, before: set<Tid>, aim: Aim, a: Addr, nd: Node)
    requires Flights.Inv(s) && Spared(s, t, before, aim, a, nd) && Enabled(s, Run(t, inp))
    requires Skips(s, Run(t, inp), t, aim, a)
    ensures Spared(Apply(s, Run(t, inp)), t, before, aim, a, nd)
  {
    var m := Next(s.nodes[s.tasks[t].node], t, s.tasks[t], inp);
    assert Flights.TaskOk(s, t);
    NextIsGapMove(s.nodes[s.tasks[t].node], t, s.tasks[t], inp, m, a, aim);
    if Owed(m.task.pc, a, aim) && s.tasks[t].pc.Sort? {
      assert SortsKey(s, Run(t, inp), t, aim);
    } else if Owed(m.task.pc, a, aim) {
      assert ListsBatch(s, Run(t, inp), t, aim);
    }
  }

  // Another task: it serves the removal elsewhere, or leaves the key alone.
  lemma OtherSteps(s: State, t: Tid, u: Tid, inp: Input, before: set<Tid>, aim: Aim, a: Addr, nd: Node)
    requires Flights.Inv(s) && Spared(s, t, before, aim, a, nd) && Enabled(s, Run(u, inp)) && u != t
    requires Calm(s, Run(u, inp), t, aim, before) && LeavesCopy(s, Run(u, inp), aim, a)
    ensures Spared(Apply(s, Run(u, inp)), t, before, aim, a, nd)
  {
    var m := Next(s.nodes[s.tasks[u].node], u, s.tasks[u], inp);
    assert Flights.TaskOk(s, u);
    Flights.SpawnsFresh(s, u, inp);
    if u !in before && Serves(s.tasks[u].op, s.tasks[u].node, aim) {
      ServerStaysPut(s.nodes[s.tasks[u].node], u, s.tasks[u], inp, m);
      OtherMoved(s, t, u, m, ChildOf(inp), before, aim, a, nd);
    } else {
      Quiet.NextSpares(s.nodes[s.tasks[u].node], u, s.tasks[u], inp, m, aim.key);
      OtherMoved(s, t, u, m, ChildOf(inp), before, aim, a, nd);
    }
  }

  lemma ServerStaysPut(nd: Node, u: Tid, task: Task, inp: Input, m: Move)
    requires m == Next(nd, u, task, inp) && m.Move? && IsServe(task.op) && Flights.Shape(task.op, task.pc)
    ensures m.spawn.None? && m.task.op == task.op && m.task.node == task.node
  {
  }

  lemma OtherMoved(s: State, t: Tid, u: Tid, m: Move, child: Option<Tid>, before: set<Tid>, aim: Aim, a: Addr, nd: Node)
    requires Spared(s, t, before, aim, a, nd) && u in s.tasks && s.tasks[u].node in s.nodes && u != t
    requires Flights.SpawnOk(s, m, child)
    requires m.task.op == s.tasks[u].op && m.task.node == s.tasks[u].node
    requires s.tasks[u].node == a ==> Quiet.SameAt(s.nodes[a], m.node, aim.key)
    requires m.spawn.Some? ==> Quiet.Spares(m.spawn.value.op, aim.key)
    ensures Spared(Moved(s, u, m, child), t, before, aim, a, nd)
  {
  }

  lemma StepSpares(s: State, step: Step, t: Tid, before: set<Tid>, aim: Aim, a: Addr, nd: Node)
    requires Flights.Inv(s) && Spared(s, t, before, aim, a, nd) && Enabled(s, step)
    requires Calm(s, step, t, aim, before) && Skips(s, step, t, aim, a)
    ensures Spared(Apply(s, step), t, before, aim, a, nd)
  {
    if step.Run? && step.t == t {
      RemovalSteps(s, t, step.input, before, aim, a, nd);
    } else if step.Run? {
      OtherSteps(s, t, step.t, step.input, before, aim, a, nd);
    }
  }

  lemma {:induction false} SparedUntil(ss: seq<State>, steps: seq<Step>, b: nat, i: nat, j: nat, t: Tid, aim: Aim,
                                       a: Addr)
    requires Undisturbed(ss, steps, b, j, t, aim) && b < i <= j && aim.view.None? && a != aim.origin && a in ss[b].nodes
    requires steps[b].op.RemoveKeys?
    requires forall i :: b < i < j ==> Skips(ss[i], steps[i], t, aim, a)
    ensures Spared(ss[i], t, ss[b].tasks.Keys, aim, a, ss[b].nodes[a])
  {
    if i == b + 1 {
      assert ss[b + 1] == Apply(ss[b], steps[b]);
    } else {
      SparedUntil(ss, steps, b, i - 1, j, t, aim, a);
      GroundInv(ss, steps, i - 1);
      StepSpares(ss[i - 1], steps[i - 1], t, ss[b].tasks.Keys, aim, a, ss[b].nodes[a]);
    }
  }

  // ---------- exactly which copies a batch removal clears ----------

  // At this step the removal commits itself to clearing the key at address a: the ring names a as
  // the owner of the key, or lists a client at a that owns no key of the batch.
  ghost predicate Commits(s: State, step: Step, t: Tid, aim: Aim, a: Addr) {
    || (SortsKey(s, step, t, aim)
        && RemoteOwner(s.nodes[aim.origin], aim.key).Some?
        && RemoteOwner(s.nodes[aim.origin], aim.key).value.address == a)
    || (ListsBatch(s, step, t, aim)
        && exists c :: c in Others(s.nodes[aim.origin]) && c.address == a && c !in s.tasks[t].pc.fan.owners)
  }

  predicate HasCopy(nd: Node, k: Key) {
    k in nd.main || k in nd.hot
  }

  // A peer's copy of a batch key is gone when RemoveKeys returns nil if and only if the removal
  // committed itself to that peer; otherwise the copy is what it was.
  lemma BatchClearsExactly(ss: seq<State>, steps: seq<Step>, b: nat, j: nat, t: Tid, aim: Aim, a: Addr)
    requires Undisturbed(ss, steps, b, j, t, aim) && aim.view.None? && steps[b].op.RemoveKeys?
    requires a != aim.origin && a in ss[b].nodes && ss[b].nodes[a].caching && HasCopy(ss[b].nodes[a], aim.key)
    requires forall i :: b < i < j ==> LeavesCopy(ss[i], steps[i], aim, a)
    requires t in ss[j].tasks && Settled(ss[j].tasks[t])
    ensures a in ss[j].nodes
    ensures HasCopy(ss[j].nodes[a], aim.key) <==> !exists i :: b < i < j && Commits(ss[i], steps[i], t, aim, a)
    ensures HasCopy(ss[j].nodes[a], aim.key) ==> Quiet.SameAt(ss[b].nodes[a], ss[j].nodes[a], aim.key)
  {
    Runs.SameNodes(ss, steps, b, j, a);
    if i :| b < i < j && Commits(ss[i], steps[i], t, aim, a) {
      CommitClears(ss, steps, b, i, j, t, aim, a);
    } else {
      forall i | b < i < j
        ensures Skips(ss[i], steps[i], t, aim, a)
      {
        assert !Commits(ss[i], steps[i], t, aim, a);
      }
      SparedUntil(ss, steps, b, j, j, t, aim, a);
    }
  }

  lemma CommitClears(ss: seq<State>, steps: seq<Step>, b: nat, i: nat, j: nat, t: Tid, aim: Aim, a: Addr)
    requires Undisturbed(ss, steps, b, j, t, aim) && aim.view.None? && b < i < j && Commits(ss[i], steps[i], t, aim, a)
    requires t in ss[j].tasks && Settled(ss[j].tasks[t])
    ensures GoodAt(ss[j], a, aim)
  {
    if SortsKey(ss[i], steps[i], t, aim) {
      BatchReachesOwner(ss, steps, b, i, j, t, aim);
    } else {
      BatchReachesNonOwners(ss, steps, b, i, j, t, aim);
    }
  }
}
