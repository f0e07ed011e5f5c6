// Set, Remove, RemoveKeys and the requests they send never deadlock, whatever the rings pick, as long
// as the peers that are listed exist: a served request waits for the lock at most.
module Progress {
  import opened Views
  import opened Wire
  import opened Protocol
  import opened Blocking
  import Flights
  import Requests
  import Ring

  // The peers on a ring, and those it lists, are members of the cluster.
  ghost predicate Known(ring: Ring.Ring, members: set<Addr>) {
    && (forall p :: p in ring.points ==> p.peer.address in members)
    && (forall a :: a in ring.clients ==> ring.clients[a].address in members)
  }

  ghost predicate KnownBatch(batch: map<Client, seq<Key>>, members: set<Addr>) {
    forall c :: c in batch ==> c.address in members
  }

  predicate Served(op: Op) {
    op.ServeSet? || op.ServeRemove?
  }

  ghost predicate KnownFan(f: Fan, members: set<Addr>) {
    && (forall p :: p in f.todo ==> p.to.address in members && Served(p.msg))
    && (forall c :: c in f.out ==> Served(f.out[c].msg))
  }

  ghost predicate KnownThen(th: Then, members: set<Addr>) {
    th.EraseMore? && th.batch.Some? ==> KnownBatch(th.batch.value, members)
  }

  // Requests of a write go to members only, and only RemoveKeys lists its peers in two rounds.
  ghost predicate KnownPc(op: Op, pc: Pc, members: set<Addr>) {
    match pc
    case CallOwner(c) => c.address in members
    case Sort(_, batch) => KnownBatch(batch, members)
    case Acquire(_, th) => KnownThen(th, members)
    case First(_, th) => KnownThen(th, members)
    case Second(_, th) => KnownThen(th, members)
    case Release(_, th) => KnownThen(th, members)
    case FanOut(f) => KnownFan(f, members) && (f.listed || op.RemoveKeys?)
    case _ => true
  }

  ghost predicate TaskInv(s: State, t: Tid)
    requires t in s.tasks
  {
    KnownPc(s.tasks[t].op, s.tasks[t].pc, s.nodes.Keys)
  }

  ghost predicate Inv(s: State) {
    && (forall n {:trigger s.nodes[n]} :: n in s.nodes ==> Known(s.nodes[n].ring, s.nodes.Keys))
    && (forall t {:trigger TaskInv(s, t)} :: t in s.tasks ==> TaskInv(s, t))
  }

  // ---------- every move keeps it ----------

  lemma KnownPick(ring: Ring.Ring, k: Key, members: set<Addr>)
    requires Known(ring, members)
    ensures var p := Ring.Pick(ring, k); p.Some? ==> p.value.address in members
  {
  }

  lemma NextKnown(nd: Node, t: Tid, task: Task, inp: Input, m: Move, members: set<Addr>)
    requires m == Next(nd, t, task, inp) && m.Move? && Flights.LockFits(task.op, task.pc)
    requires Known(nd.ring, members) && KnownPc(task.op, task.pc, members)
    ensures KnownPc(m.task.op, m.task.pc, members) && m.node.ring == nd.ring
    ensures m.spawn.Some? ==> m.spawn.value.pc.Begin?
  {
    if InDo(task.pc) {
      DoKnown(nd, t, task, m, members);
    } else if InLock(task.pc) {
      LockKnown(nd, t, task, m, members);
    } else if task.pc.FanOut? {
      FanKnown(nd, task, inp, m, members);
    } else if task.op.Get? {
      GetKnown(nd, task, inp, m, members);
    } else if task.op.Set? || task.op.Remove? {
      KnownPick(nd.ring, task.op.key, members);
      WriteKnown(nd, task, inp, m, members);
    } else if task.op.RemoveKeys? {
      RemoveKeysKnown(nd, task, m, members);
    }
  }

  lemma DoKnown(nd: Node, t: Tid, task: Task, m: Move, members: set<Addr>)
    requires HasKey(task.op) && InDo(task.pc) && m == NextFlight(nd, t, task) && m.Move?
    ensures KnownPc(m.task.op, m.task.pc, members) && m.node.ring == nd.ring && m.spawn.None?
  {
  }

  lemma LockKnown(nd: Node, t: Tid, task: Task, m: Move, members: set<Addr>)
    requires InLock(task.pc) && m == Critical(nd, t, task) && m.Move? && Flights.LockFits(task.op, task.pc)
    requires KnownPc(task.op, task.pc, members)
    ensures KnownPc(m.task.op, m.task.pc, members) && m.node.ring == nd.ring && m.spawn.None?
  {
  }

  lemma FanKnown(nd: Node, task: Task, inp: Input, m: Move, members: set<Addr>)
    requires task.pc.FanOut? && m == NextFan(nd, task, inp) && m.Move?
    requires Known(nd.ring, members) && KnownPc(task.op, task.pc, members)
    ensures KnownPc(m.task.op, m.task.pc, members) && m.node.ring == nd.ring
    ensures m.spawn.Some? ==> m.spawn.value.pc.Begin?
  {
  }

  lemma GetKnown(nd: Node, task: Task, inp: Input, m: Move, members: set<Addr>)
    requires task.op.Get? && Fits(task.pc, inp) && m == NextGet(nd, task, inp) && m.Move?
    ensures KnownPc(m.task.op, m.task.pc, members) && m.node.ring == nd.ring
    ensures m.spawn.Some? ==> m.spawn.value.pc.Begin?
  {
  }

  lemma WriteKnown(nd: Node, task: Task, inp: Input, m: Move, members: set<Addr>)
    requires (task.op.Set? || task.op.Remove?) && Fits(task.pc, inp) && m == NextWrite(nd, task, inp) && m.Move?
    requires Known(nd.ring, members) && KnownPc(task.op, task.pc, members)
    requires var p := Ring.Pick(nd.ring, task.op.key); p.Some? ==> p.value.address in members
    ensures KnownPc(m.task.op, m.task.pc, members) && m.node.ring == nd.ring
    ensures m.spawn.Some? ==> m.spawn.value.pc.Begin?
  {
  }

  lemma RemoveKeysKnown(nd: Node, task: Task, m: Move, members: set<Addr>)
    requires task.op.RemoveKeys? && m == NextRemoveKeys(nd, task) && m.Move?
    requires Known(nd.ring, members) && KnownPc(task.op, task.pc, members)
    ensures KnownPc(m.task.op, m.task.pc, members) && m.node.ring == nd.ring && m.spawn.None?
  {
    if task.pc.Sort? && task.pc.i < |task.op.keys| {
      KnownPick(nd.ring, task.op.keys[task.pc.i], members);
    }
  }

  lemma MovedKeepsInv(s: State, t: Tid, m: Move, child: Option<Tid>)
    requires Inv(s) && t in s.tasks && s.tasks[t].node in s.nodes && Flights.SpawnOk(s, m, child)
    requires m.node.ring == s.nodes[s.tasks[t].node].ring && KnownPc(m.task.op, m.task.pc, s.nodes.Keys)
    requires m.spawn.Some? ==> m.spawn.value.pc.Begin?
    ensures Inv(Moved(s, t, m, child))
  {
    var s' := Moved(s, t, m, child);
    assert s'.nodes.Keys == s.nodes.Keys;
    forall u | u in s'.tasks
      ensures TaskInv(s', u)
    {
      if u in s.tasks {
        assert TaskInv(s, u);
      }
    }
  }

  // Peer lists may change, but only to members.
  ghost predicate Allowed(s: State, step: Step) {
    step.SetPeers? ==> Known(step.ring, s.nodes.Keys)
  }

  lemma StepKeepsInv(s: State, step: Step)
    requires Flights.Inv(s) && Inv(s) && Enabled(s, step) && Allowed(s, step)
    ensures Inv(Apply(s, step))
  {
    if step.Run? {
      var t := step.t;
      var m := Next(s.nodes[s.tasks[t].node], t, s.tasks[t], step.input);
      assert TaskInv(s, t) && Flights.TaskOk(s, t);
      Flights.SpawnsFresh(s, t, step.input);
      NextKnown(s.nodes[s.tasks[t].node], t, s.tasks[t], step.input, m, s.nodes.Keys);
      MovedKeepsInv(s, t, m, ChildOf(step.input));
    } else {
      QuietKeepsInv(s, step);
    }
  }

  lemma QuietKeepsInv(s: State, step: Step)
    requires Inv(s) && Enabled(s, step) && !step.Run? && Allowed(s, step)
    ensures Inv(Apply(s, step))
  {
    var s' := Apply(s, step);
    assert s'.nodes.Keys == s.nodes.Keys;
    forall u | u in s'.tasks
      ensures TaskInv(s', u)
    {
      if u in s.tasks {
        assert TaskInv(s, u);
      }
    }
  }

  ghost predicate AllInv(s: State) {
    Flights.Inv(s) && Requests.Inv(s) && Inv(s)
  }

  ghost predicate Start(s: State) {
    Init(s) && forall n :: n in s.nodes ==> Known(s.nodes[n].ring, s.nodes.Keys)
  }

  lemma {:induction false} Invariant(ss: seq<State>, steps: seq<Step>, i: nat)
    requires IsRun(ss, steps) && Start(ss[0]) && i < |ss|
    requires forall j :: 0 <= j < |steps| ==> Allowed(ss[j], steps[j])
    ensures AllInv(ss[i])
  {
    if i == 0 {
      Flights.InitInv(ss[0]);
    } else {
      Invariant(ss, steps, i - 1);
      Flights.StepKeepsInv(ss[i - 1], steps[i - 1]);
      Requests.StepKeepsInv(ss[i - 1], steps[i - 1]);
      StepKeepsInv(ss[i - 1], steps[i - 1]);
    }
  }

  // ---------- no deadlock ----------

  predicate IsWrite(op: Op) {
    op.Set? || op.Remove?
  }

  // A request served for a peer waits for the lock at most.
  lemma ServedUnblocked(s: State, t: Tid) returns (path: seq<Tid>, inp: Input)
    requires AllInv(s) && t in s.tasks && Served(s.tasks[t].op) && !s.tasks[t].pc.Ended?
    ensures Unblocks(s, t, path, inp)
  {
    assert Flights.TaskOk(s, t);
    inp := Go;
    if s.tasks[t].pc.Acquire? && s.nodes[s.tasks[t].node].loads.mu.Some? {
      path := HeldUp(s, t);
    } else {
      Alone(s, t, Go);
      path := [t];
    }
  }

  // A task that waits for the answer of a served request.
  lemma AwaitUnblocked(s: State, t: Tid, c: Tid) returns (path: seq<Tid>, inp: Input)
    requires AllInv(s) && t in s.tasks && s.tasks[t].node in s.nodes && c in s.tasks && Served(s.tasks[c].op)
    requires Blocks(s, t, c)
    requires s.tasks[c].pc.Ended? ==> Enabled(s, Run(t, Answer(c, OverWire(s.tasks[c].pc.outcome))))
    ensures Unblocks(s, t, path, inp)
  {
    if s.tasks[c].pc.Ended? {
      inp := Answer(c, OverWire(s.tasks[c].pc.outcome));
      Alone(s, t, inp);
      path := [t];
    } else {
      var rest;
      rest, inp := ServedUnblocked(s, c);
      Prepend(s, t, rest, inp);
      path := [t] + rest;
    }
  }

  lemma OwnerUnblocked(s: State, t: Tid) returns (path: seq<Tid>, inp: Input)
    requires AllInv(s) && t in s.tasks && IsWrite(s.tasks[t].op) && s.tasks[t].pc.AwaitOwner?
    ensures Unblocks(s, t, path, inp)
  {
    assert Flights.TaskOk(s, t) && Requests.KidsOk(s.tasks, s.tasks[t]);
    path, inp := AwaitUnblocked(s, t, s.tasks[t].pc.child);
  }

  lemma FanUnblocked(s: State, t: Tid) returns (path: seq<Tid>, inp: Input)
    requires AllInv(s) && t in s.tasks && s.tasks[t].pc.FanOut?
    ensures Unblocks(s, t, path, inp)
  {
    assert Flights.TaskOk(s, t) && Requests.KidsOk(s.tasks, s.tasks[t]) && TaskInv(s, t);
    var f := s.tasks[t].pc.fan;
    if f.todo != {} {
      var p :| p in f.todo;
      inp := DispatchRuns(s, t, p);
      path := [t];
    } else if c :| c in f.out {
      path, inp := AwaitUnblocked(s, t, c);
    } else {
      assert f.out == map[];
      FannedOut(s, t);
      path, inp := [t], Go;
    }
  }

  // Nothing is left to send or to wait for: peers are listed once more, or the fan-out ends.
  lemma FannedOut(s: State, t: Tid)
    requires AllInv(s) && t in s.tasks && s.tasks[t].pc.FanOut?
    requires s.tasks[t].pc.fan.todo == {} && s.tasks[t].pc.fan.out == map[]
    ensures Unblocks(s, t, [t], Go)
  {
    assert Flights.TaskOk(s, t) && TaskInv(s, t);
    Alone(s, t, Go);
  }

  lemma DispatchRuns(s: State, t: Tid, p: Parcel) returns (inp: Input)
    requires AllInv(s) && t in s.tasks && s.tasks[t].pc.FanOut? && p in s.tasks[t].pc.fan.todo
    ensures Unblocks(s, t, [t], inp)
  {
    assert Flights.TaskOk(s, t) && Requests.KidsOk(s.tasks, s.tasks[t]) && TaskInv(s, t);
    var child := Bound(s.tasks.Keys);
    assert child !in s.tasks.Keys;
    inp := Dispatch(p, child);
    Alone(s, t, inp);
  }

  // A write that neither waits for a flight, an answer nor the lock has a move.
  lemma GoHasMove(nd: Node, t: Tid, task: Task)
    requires (IsWrite(task.op) || task.op.RemoveKeys?) && Flights.Shape(task.op, task.pc)
    requires !task.pc.Ended? && !task.pc.Wait? && !task.pc.CallOwner? && !task.pc.AwaitOwner? && !task.pc.FanOut?
    requires task.pc.Acquire? ==> nd.loads.mu.None?
    requires HasKey(task.op) ==> GroupOf(nd, task.op).mu.None?
    requires Flights.LeaderOk(GroupOf(nd, task.op), t, task.op, task.pc)
    ensures Next(nd, t, task, Go).Move? && Next(nd, t, task, Go).spawn.None?
  {
  }

  lemma FreeRuns(s: State, t: Tid) returns (inp: Input)
    requires AllInv(s) && t in s.tasks && (IsWrite(s.tasks[t].op) || s.tasks[t].op.RemoveKeys?)
    requires !s.tasks[t].pc.Ended? && !s.tasks[t].pc.Wait? && !s.tasks[t].pc.AwaitOwner? && !s.tasks[t].pc.FanOut?
    requires s.tasks[t].node in s.nodes && (s.tasks[t].pc.Acquire? ==> s.nodes[s.tasks[t].node].loads.mu.None?)
    ensures Unblocks(s, t, [t], inp)
  {
    assert Flights.TaskOk(s, t);
    if s.tasks[t].pc.CallOwner? {
      inp := SendRuns(s, t);
    } else {
      assert Flights.NodeOk(s, s.tasks[t].node);
      GoHasMove(s.nodes[s.tasks[t].node], t, s.tasks[t]);
      inp := Go;
      Alone(s, t, inp);
    }
  }

  lemma SendRuns(s: State, t: Tid) returns (inp: Input)
    requires AllInv(s) && t in s.tasks && IsWrite(s.tasks[t].op) && s.tasks[t].pc.CallOwner?
    ensures Unblocks(s, t, [t], inp)
  {
    assert Flights.TaskOk(s, t) && TaskInv(s, t);
    var child := Bound(s.tasks.Keys);
    assert child !in s.tasks.Keys;
    inp := Send(child);
    Alone(s, t, inp);
  }

  lemma LeaderUnblocked(s: State, t: Tid) returns (path: seq<Tid>, inp: Input)
    requires AllInv(s) && t in s.tasks && (IsWrite(s.tasks[t].op) || s.tasks[t].op.RemoveKeys?)
    requires !s.tasks[t].pc.Ended? && !s.tasks[t].pc.Wait?
    ensures Unblocks(s, t, path, inp)
  {
    assert Flights.TaskOk(s, t);
    if s.tasks[t].pc.AwaitOwner? {
      path, inp := OwnerUnblocked(s, t);
    } else if s.tasks[t].pc.FanOut? {
      path, inp := FanUnblocked(s, t);
    } else if s.tasks[t].pc.Acquire? && s.nodes[s.tasks[t].node].loads.mu.Some? {
      inp := Go;
      path := HeldUp(s, t);
    } else {
      inp := FreeRuns(s, t);
      path := [t];
    }
  }

  // The flight that a task waits for is led, unless it is done.
  lemma LeaderNotWaiting(s: State, t: Tid)
    requires Flights.Inv(s) && t in s.tasks && IsWrite(s.tasks[t].op) && s.tasks[t].pc.Wait?
    requires s.tasks[t].node in s.nodes && s.tasks[t].pc.call in s.tasks
    requires s.tasks[t].pc.call in GroupOf(s.nodes[s.tasks[t].node], s.tasks[t].op).calls
    ensures GroupOf(s.nodes[s.tasks[t].node], s.tasks[t].op).calls[s.tasks[t].pc.call].done
      || Flights.Leads(s.tasks[s.tasks[t].pc.call].op, s.tasks[s.tasks[t].pc.call].pc)
  {
    assert Flights.NodeOk(s, s.tasks[t].node);
  }

  lemma FollowerUnblocked(s: State, t: Tid) returns (path: seq<Tid>, inp: Input)
    requires AllInv(s) && t in s.tasks && IsWrite(s.tasks[t].op) && s.tasks[t].pc.Wait?
    ensures Unblocks(s, t, path, inp)
  {
    Flights.JoinedResult(s, t);
    var c := s.tasks[t].pc.call;
    LeaderNotWaiting(s, t);
    if GroupOf(s.nodes[s.tasks[t].node], s.tasks[t].op).calls[c].done {
      inp := Go;
      Alone(s, t, inp);
      path := [t];
    } else {
      var rest;
      rest, inp := LeaderUnblocked(s, c);
      Prepend(s, t, rest, inp);
      path := [t] + rest;
    }
  }

  // Every unfinished operation that is not a Get can go on without any failure, or waits for a chain
  // of tasks whose last one can: with peer lists that name members, in any order and however they
  // disagree, whatever fails or is lost on the way.
  lemma WritesNeverDeadlock(ss: seq<State>, steps: seq<Step>, i: nat, t: Tid)
    requires IsRun(ss, steps) && Start(ss[0]) && i < |ss|
    requires forall j :: 0 <= j < |steps| ==> Allowed(ss[j], steps[j])
    requires t in ss[i].tasks && !ss[i].tasks[t].op.Get?
    ensures !Deadlocked(ss[i], t)
  {
    Invariant(ss, steps, i);
    var s := ss[i];
    if !s.tasks[t].pc.Ended? {
      assert Flights.TaskOk(s, t);
      var path, inp;
      if Served(s.tasks[t].op) {
        path, inp := ServedUnblocked(s, t);
      } else if s.tasks[t].pc.Wait? {
        path, inp := FollowerUnblocked(s, t);
      } else {
        path, inp := LeaderUnblocked(s, t);
      }
      assert Unblocks(s, t, path, inp);
    }
  }
}
