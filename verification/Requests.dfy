// Every request that a task waits for is a task on the peer it was sent to.
module Requests {
  import opened Views
  import opened Protocol

  // Task c is the request with this message at this address.
  ghost predicate IsRequest(tasks: map<Tid, Task>, c: Tid, address: Addr, msg: Op) {
    c in tasks && tasks[c].node == address && tasks[c].op == msg
  }

  ghost predicate KidsOk(tasks: map<Tid, Task>, task: Task) {
    match task.pc
    case AwaitPeer(p, c) => task.op.Get? && IsRequest(tasks, c, p, Get(task.op.key, false))
    case AwaitOwner(cl, c) => (task.op.Set? || task.op.Remove?) && IsRequest(tasks, c, cl.address, Message(task.op))
    case FanOut(f) => forall c :: c in f.out ==> IsRequest(tasks, c, f.out[c].to.address, f.out[c].msg)
    case _ => true
  }

  ghost predicate Inv(s: State) {
    forall t {:trigger KidsOk(s.tasks, s.tasks[t])} :: t in s.tasks ==> KidsOk(s.tasks, s.tasks[t])
  }

  // The requests the task waits for after the move: those of before, or the one just sent.
  ghost predicate KidsMove(task: Task, m: Move, child: Option<Tid>)
    requires m.Move?
  {
    && m.task.op == task.op && m.task.node == task.node
    && match m.task.pc
       case AwaitPeer(p, c) =>
         task.op.Get? && child == Some(c) && m.spawn.Some?
         && m.spawn.value.node == p && m.spawn.value.op == Get(task.op.key, false)
       case AwaitOwner(cl, c) =>
         (task.op.Set? || task.op.Remove?) && child == Some(c) && m.spawn.Some?
         && m.spawn.value.node == cl.address && m.spawn.value.op == Message(task.op)
       case FanOut(f) =>
         forall c :: c in f.out ==>
           (task.pc.FanOut? && c in task.pc.fan.out && task.pc.fan.out[c] == f.out[c])
           || (child == Some(c) && m.spawn.Some? && m.spawn.value.node == f.out[c].to.address
               && m.spawn.value.op == f.out[c].msg)
       case _ => true
  }

  lemma NextIsKidsMove(nd: Node, t: Tid, task: Task, inp: Input, m: Move)
    requires m == Next(nd, t, task, inp) && m.Move?
    ensures KidsMove(task, m, ChildOf(inp))
  {
    if InDo(task.pc) {
    } else if InLock(task.pc) {
    } else if task.pc.FanOut? {
      FanKidsMove(nd, task, inp, m);
    } else if task.op.Get? {
      GetKidsMove(nd, task, inp, m);
    } else if task.op.Set? || task.op.Remove? {
      WriteKidsMove(nd, task, inp, m);
    } else {
    }
  }

  lemma GetKidsMove(nd: Node, task: Task, inp: Input, m: Move)
    requires task.op.Get? && Fits(task.pc, inp) && m == NextGet(nd, task, inp) && m.Move?
    ensures KidsMove(task, m, ChildOf(inp))
  {
  }

  lemma WriteKidsMove(nd: Node, task: Task, inp: Input, m: Move)
    requires (task.op.Set? || task.op.Remove?) && Fits(task.pc, inp) && m == NextWrite(nd, task, inp) && m.Move?
    ensures KidsMove(task, m, ChildOf(inp))
  {
  }

  lemma FanKidsMove(nd: Node, task: Task, inp: Input, m: Move)
    requires task.pc.FanOut? && m == NextFan(nd, task, inp) && m.Move?
    ensures KidsMove(task, m, ChildOf(inp))
  {
  }

  lemma MovedKidsOk(s: State, t: Tid, m: Move, child: Option<Tid>, u: Tid)
    requires t in s.tasks && u in s.tasks && m.Move?
    requires m.spawn.Some? ==> child.Some? && child.value !in s.tasks
    requires KidsMove(s.tasks[t], m, child) && KidsOk(s.tasks, s.tasks[u])
    ensures KidsOk(Moved(s, t, m, child).tasks, Moved(s, t, m, child).tasks[u])
  {
  }

  lemma StepKeepsInv(s: State, step: Step)
    requires Inv(s) && Enabled(s, step)
    ensures Inv(Apply(s, step))
  {
    var s' := Apply(s, step);
    if step.Run? {
      var t := step.t;
      var m := Next(s.nodes[s.tasks[t].node], t, s.tasks[t], step.input);
      NextIsKidsMove(s.nodes[s.tasks[t].node], t, s.tasks[t], step.input, m);
      RunKeepsInv(s, t, m, ChildOf(step.input));
      SpawnBegins(s.nodes[s.tasks[t].node], t, s.tasks[t], step.input);
    } else {
      forall u | u in s'.tasks
        ensures KidsOk(s'.tasks, s'.tasks[u])
      {
        if u in s.tasks {
          assert KidsOk(s.tasks, s.tasks[u]);
        }
      }
    }
  }

  lemma SpawnBegins(nd: Node, t: Tid, task: Task, inp: Input)
    ensures var m := Next(nd, t, task, inp); m.Move? && m.spawn.Some? ==> m.spawn.value.pc == Begin
  {
  }

  lemma RunKeepsInv(s: State, t: Tid, m: Move, child: Option<Tid>)
    requires Inv(s) && t in s.tasks && m.Move?
    requires m.spawn.Some? ==> child.Some? && child.value !in s.tasks
    requires KidsMove(s.tasks[t], m, child)
    ensures var s' := Moved(s, t, m, child);
      forall u :: u in s'.tasks && (m.spawn.Some? && u == child.value ==> m.spawn.value.pc == Begin)
        ==> KidsOk(s'.tasks, s'.tasks[u])
  {
    forall u | u in s.tasks
      ensures KidsOk(Moved(s, t, m, child).tasks, Moved(s, t, m, child).tasks[u])
    {
      MovedKidsOk(s, t, m, child, u);
    }
  }
}
