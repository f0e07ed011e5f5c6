// Forwarding never loops. Every ring that contains its own node sends a key only to a node that
// is strictly nearer to it on the circle, so requests run downhill even while the peer lists of
// different nodes disagree, and no Get can end up waiting for its own flight.
module Hops {
  import opened Views
  import opened Wire
  import opened Protocol
  import opened Blocking
  import Flights
  import Requests
  import Quiet
  import Ring

  type Rank = Addr -> nat

  // Whom node n forwards k to is ranked below n, and is part of the cluster.
  ghost predicate Downhill(n: Addr, ring: Ring.Ring, k: Key, rank: Rank, members: set<Addr>) {
    var p := Ring.Pick(ring, k);
    p.Some? && !p.value.isSelf ==> rank(p.value.address) < rank(n) && p.value.address in members
  }

  // A ring as SetPeers builds it from any list of members that has the node itself, and nobody
  // else, marked as self. A node without peers has an empty ring.
  ghost predicate ProperRing(n: Addr, r: Ring.Ring, digest: string -> string, replicas: nat, hashFn: Ring.HashFn,
                             members: set<Addr>) {
    r.points == []
    || (r.hashFn == hashFn
        && exists l :: n in Ring.Addresses(l) && Ring.ListFor(l, n, Ring.Addresses(l))
                       && Ring.Addresses(l) <= members && Ring.Builds(r, digest, replicas, l))
  }

  lemma ProperRingIsDownhill(n: Addr, r: Ring.Ring, digest: string -> string, replicas: nat, hashFn: Ring.HashFn,
                             members: set<Addr>, k: Key)
    requires replicas > 0 && ProperRing(n, r, digest, replicas, hashFn, members)
    requires !Ring.Collides(hashFn, digest, replicas, members)
    ensures Downhill(n, r, k, a => Ring.Near(hashFn, digest, replicas, Ring.Signed(hashFn(k)), a), members)
  {
    if r.points != [] {
      var l :| n in Ring.Addresses(l) && Ring.ListFor(l, n, Ring.Addresses(l))
               && Ring.Addresses(l) <= members && Ring.Builds(r, digest, replicas, l);
      Ring.PickedIsNearest(r, digest, replicas, l, k, n);
      assert Ring.Pick(r, k).value.address in Ring.Addresses(l);
    }
  }

  // ---------- the invariant ----------

  predicate NotDone(o: Outcome) {
    o != Return(Done)
  }

  // Where a Get of k stands: requests go downhill, and a Get never ends with a bare "done".
  predicate GoesDown(task: Task, rank: Rank, members: set<Addr>) {
    match task.pc
    case CallPeer(p) => rank(p) < rank(task.node) && p in members
    case AwaitPeer(p, _) => rank(p) < rank(task.node) && p in members
    case CountLocal(r) => r != Done
    case Store(o) => NotDone(o)
    case Signal(o) => NotDone(o)
    case Delete(o) => NotDone(o)
    case Ended(o) => NotDone(o)
    case _ => true
  }

  ghost predicate TaskInv(s: State, t: Tid, k: Key, rank: Rank)
    requires t in s.tasks
  {
    Quiet.IsGet(s.tasks[t].op, k) ==> GoesDown(s.tasks[t], rank, s.nodes.Keys)
  }

  ghost predicate Inv(s: State, k: Key, rank: Rank) {
    && (forall n {:trigger Downhill(n, s.nodes[n].ring, k, rank, s.nodes.Keys)} ::
          n in s.nodes ==> Downhill(n, s.nodes[n].ring, k, rank, s.nodes.Keys))
    && (forall t {:trigger TaskInv(s, t, k, rank)} :: t in s.tasks ==> TaskInv(s, t, k, rank))
  }

  // The only hypothesis on a run: peer lists keep pointing downhill.
  ghost predicate Allowed(s: State, step: Step, k: Key, rank: Rank) {
    step.SetPeers? ==> Downhill(step.node, step.ring, k, rank, s.nodes.Keys)
  }

  lemma GetGoesDown(nd: Node, t: Tid, task: Task, inp: Input, m: Move, k: Key, rank: Rank, members: set<Addr>)
    requires m == Next(nd, t, task, inp) && m.Move?
    requires Quiet.IsGet(task.op, k) && Flights.Shape(task.op, task.pc) && GoesDown(task, rank, members)
    requires Downhill(task.node, nd.ring, k, rank, members)
    requires task.pc.Wait? && task.pc.call in nd.loads.calls && nd.loads.calls[task.pc.call].done
      ==> nd.loads.calls[task.pc.call].result != Done
    ensures GoesDown(m.task, rank, members)
  {
    if InDo(task.pc) {
    } else {
      assert m == NextGet(nd, task, inp);
    }
  }

  lemma MoverGoesDown(s: State, t: Tid, inp: Input, m: Move, k: Key, rank: Rank)
    requires Flights.Inv(s) && Inv(s, k, rank) && Enabled(s, Run(t, inp))
    requires m == Next(s.nodes[s.tasks[t].node], t, s.tasks[t], inp) && Quiet.IsGet(s.tasks[t].op, k)
    ensures GoesDown(m.task, rank, s.nodes.Keys)
  {
    var task := s.tasks[t];
    assert TaskInv(s, t, k, rank) && Flights.TaskOk(s, t);
    assert Downhill(task.node, s.nodes[task.node].ring, k, rank, s.nodes.Keys);
    if task.pc.Wait? {
      Flights.JoinedResult(s, t);
      assert TaskInv(s, task.pc.call, k, rank);
    }
    GetGoesDown(s.nodes[task.node], t, task, inp, m, k, rank, s.nodes.Keys);
  }

  lemma RunKeepsInv(s: State, t: Tid, inp: Input, k: Key, rank: Rank)
    requires Flights.Inv(s) && Inv(s, k, rank) && Enabled(s, Run(t, inp))
    ensures Inv(Apply(s, Run(t, inp)), k, rank)
  {
    var m := Next(s.nodes[s.tasks[t].node], t, s.tasks[t], inp);
    Flights.RunIsFlightMove(s, t, inp, m);
    SameRing(s.nodes[s.tasks[t].node], t, s.tasks[t], inp, m);
    if Quiet.IsGet(s.tasks[t].op, k) {
      MoverGoesDown(s, t, inp, m, k, rank);
    }
    MovedKeepsInv(s, t, m, ChildOf(inp), k, rank);
  }

  lemma MovedKeepsInv(s: State, t: Tid, m: Move, child: Option<Tid>, k: Key, rank: Rank)
    requires Inv(s, k, rank) && t in s.tasks && s.tasks[t].node in s.nodes && Flights.SpawnOk(s, m, child)
    requires m.task.op == s.tasks[t].op && m.node.ring == s.nodes[s.tasks[t].node].ring
    requires Quiet.IsGet(s.tasks[t].op, k) ==> GoesDown(m.task, rank, s.nodes.Keys)
    ensures Inv(Moved(s, t, m, child), k, rank)
  {
    var s' := Moved(s, t, m, child);
    assert s'.nodes.Keys == s.nodes.Keys;
    forall u | u in s'.tasks
      ensures TaskInv(s', u, k, rank)
    {
      if u in s.tasks {
        assert TaskInv(s, u, k, rank);
      }
    }
    forall n | n in s'.nodes
      ensures Downhill(n, s'.nodes[n].ring, k, rank, s'.nodes.Keys)
    {
      assert Downhill(n, s.nodes[n].ring, k, rank, s.nodes.Keys);
    }
  }

  lemma SameRing(nd: Node, t: Tid, task: Task, inp: Input, m: Move)
    requires m == Next(nd, t, task, inp) && m.Move?
    ensures m.node.ring == nd.ring
  {
  }

  lemma QuietKeepsInv(s: State, step: Step, k: Key, rank: Rank)
    requires Inv(s, k, rank) && Enabled(s, step) && !step.Run? && Allowed(s, step, k, rank)
    ensures Inv(Apply(s, step), k, rank)
  {
    var s' := Apply(s, step);
    assert s'.nodes.Keys == s.nodes.Keys;
    forall u | u in s'.tasks
      ensures TaskInv(s', u, k, rank)
    {
      if u in s.tasks {
        assert TaskInv(s, u, k, rank);
      }
    }
    forall n | n in s'.nodes
      ensures Downhill(n, s'.nodes[n].ring, k, rank, s'.nodes.Keys)
    {
      assert Downhill(n, s.nodes[n].ring, k, rank, s.nodes.Keys);
    }
  }

  ghost predicate AllInv(s: State, k: Key, rank: Rank) {
    Flights.Inv(s) && Requests.Inv(s) && Inv(s, k, rank)
  }

  ghost predicate Start(s: State, k: Key, rank: Rank) {
    Init(s) && forall n :: n in s.nodes ==> Downhill(n, s.nodes[n].ring, k, rank, s.nodes.Keys)
  }

  lemma {:induction false} Invariant(ss: seq<State>, steps: seq<Step>, k: Key, rank: Rank, i: nat)
    requires IsRun(ss, steps) && Start(ss[0], k, rank) && i < |ss|
    requires forall j :: 0 <= j < |steps| ==> Allowed(ss[j], steps[j], k, rank)
    ensures AllInv(ss[i], k, rank)
  {
    if i == 0 {
      Flights.InitInv(ss[0]);
    } else {
      Invariant(ss, steps, k, rank, i - 1);
      var s, step := ss[i - 1], steps[i - 1];
      Flights.StepKeepsInv(s, step);
      Requests.StepKeepsInv(s, step);
      if step.Run? {
        RunKeepsInv(s, step.t, step.input, k, rank);
      } else {
        QuietKeepsInv(s, step, k, rank);
      }
    }
  }

  // ---------- no deadlock ----------

  // A Get outside Do that does not wait for a peer always has a move.
  lemma GetHasMove(nd: Node, t: Tid, task: Task, child: Tid) returns (inp: Input)
    requires task.op.Get? && Flights.Shape(task.op, task.pc)
    requires !InDo(task.pc) && !task.pc.AwaitPeer? && !task.pc.Ended?
    ensures Faultless(inp) && !inp.Answer?
    ensures var m := Next(nd, t, task, inp);
      m.Move? && (m.spawn.Some? ==> task.pc.CallPeer? && inp == Send(child) && m.spawn.value.node == task.pc.peer)
  {
    match task.pc
    case LookMain(_) => inp := At(Time(0, 0));
    case LookHot(_) => inp := At(Time(0, 0));
    case CallPeer(_) => inp := Send(child);
    case PeerFailed(_) => inp := Ctx(true);
    case RunGetter => inp := Load(Loaded(View([], None)));
    case _ => inp := Go;
  }

  // A Get at the door, or in the deferred part, of its flight has one when the lock is free.
  lemma DoHasMove(nd: Node, t: Tid, task: Task)
    requires task.op.Get? && InDo(task.pc) && !task.pc.Wait? && Flights.Shape(task.op, task.pc)
    requires Flights.LeaderOk(nd.loads, t, task.op, task.pc)
    requires task.pc.Enter? || task.pc.Delete? ==> nd.loads.mu.None?
    ensures Next(nd, t, task, Go).Move? && Next(nd, t, task, Go).spawn.None?
  {
  }

  // A Get that is neither waiting for a flight or a peer nor held up by the lock can go on.
  lemma FreeGetRuns(s: State, t: Tid, k: Key, rank: Rank) returns (inp: Input)
    requires AllInv(s, k, rank) && t in s.tasks && Quiet.IsGet(s.tasks[t].op, k) && !s.tasks[t].pc.Ended?
    requires !s.tasks[t].pc.Wait? && !s.tasks[t].pc.AwaitPeer?
    requires s.tasks[t].node in s.nodes
    requires s.tasks[t].pc.Enter? || s.tasks[t].pc.Delete? ==> s.nodes[s.tasks[t].node].loads.mu.None?
    ensures Faultless(inp) && Enabled(s, Run(t, inp))
  {
    assert Flights.TaskOk(s, t) && TaskInv(s, t, k, rank);
    if InDo(s.tasks[t].pc) {
      inp := Go;
      DoHasMove(s.nodes[s.tasks[t].node], t, s.tasks[t]);
    } else {
      var child := Bound(s.tasks.Keys);
      inp := GetHasMove(s.nodes[s.tasks[t].node], t, s.tasks[t], child);
    }
  }

  // A Get whose peer request has ended can take the answer.
  lemma AnsweredRuns(s: State, t: Tid, k: Key, rank: Rank) returns (inp: Input)
    requires AllInv(s, k, rank) && t in s.tasks && Quiet.IsGet(s.tasks[t].op, k)
    requires s.tasks[t].pc.AwaitPeer? && s.tasks[t].pc.child in s.tasks && s.tasks[s.tasks[t].pc.child].pc.Ended?
    ensures Faultless(inp) && s.tasks[t].node in s.nodes && Enabled(s, Run(t, inp))
  {
    var c := s.tasks[t].pc.child;
    assert Flights.TaskOk(s, t) && Requests.KidsOk(s.tasks, s.tasks[t]) && TaskInv(s, c, k, rank);
    inp := Answer(c, OverWire(s.tasks[c].pc.outcome));
  }

  // In every reachable state an unfinished Get of k either can go on without any failure, or waits
  // for a chain of tasks whose last one can.
  lemma {:induction false} NoDeadlock(s: State, t: Tid, k: Key, rank: Rank) returns (path: seq<Tid>, inp: Input)
    requires AllInv(s, k, rank) && t in s.tasks && Quiet.IsGet(s.tasks[t].op, k) && !s.tasks[t].pc.Ended?
    ensures Unblocks(s, t, path, inp)
    decreases rank(s.tasks[t].node), if s.tasks[t].pc.Wait? then 1 else 0
  {
    assert Flights.TaskOk(s, t) && TaskInv(s, t, k, rank);
    var task := s.tasks[t];
    if task.pc.Wait? {
      path, inp := WaiterUnblocked(s, t, k, rank);
    } else if task.pc.AwaitPeer? {
      assert Requests.KidsOk(s.tasks, task);
      var c := task.pc.child;
      if s.tasks[c].pc.Ended? {
        inp := AnsweredRuns(s, t, k, rank);
        path := [t];
      } else {
        var rest;
        rest, inp := NoDeadlock(s, c, k, rank);
        path := [t] + rest;
        Prepend(s, t, rest, inp);
      }
    } else if (task.pc.Enter? || task.pc.Delete?) && s.nodes[task.node].loads.mu.Some? {
      path := HeldUp(s, t);
      inp := Go;
    } else {
      inp := FreeGetRuns(s, t, k, rank);
      path := [t];
    }
  }

  lemma {:induction false} WaiterUnblocked(s: State, t: Tid, k: Key, rank: Rank) returns (path: seq<Tid>, inp: Input)
    requires AllInv(s, k, rank) && t in s.tasks && Quiet.IsGet(s.tasks[t].op, k) && s.tasks[t].pc.Wait?
    ensures Unblocks(s, t, path, inp)
    decreases rank(s.tasks[t].node), 1, 0
  {
    Flights.JoinedResult(s, t);
    var task := s.tasks[t];
    var c := task.pc.call;
    if s.nodes[task.node].loads.calls[c].done {
      path, inp := [t], Go;
    } else {
      assert Flights.NodeOk(s, task.node);
      var rest;
      rest, inp := NoDeadlock(s, c, k, rank);
      path := [t] + rest;
      Prepend(s, t, rest, inp);
    }
  }

  // The same for whole runs: from any start, under any peer lists that name their own node, any
  // failures, removals and evictions, no Get is ever deadlocked.
  lemma GetsNeverDeadlock(ss: seq<State>, steps: seq<Step>, k: Key, digest: string -> string, replicas: nat,
                          hashFn: Ring.HashFn, i: nat, t: Tid)
    requires IsRun(ss, steps) && Init(ss[0]) && i < |ss| && replicas > 0
    requires !Ring.Collides(hashFn, digest, replicas, ss[0].nodes.Keys)
    requires forall n :: n in ss[0].nodes ==>
      ProperRing(n, ss[0].nodes[n].ring, digest, replicas, hashFn, ss[0].nodes.Keys)
    requires forall j :: 0 <= j < |steps| && steps[j].SetPeers? ==>
      ProperRing(steps[j].node, steps[j].ring, digest, replicas, hashFn, ss[0].nodes.Keys)
    requires t in ss[i].tasks && Quiet.IsGet(ss[i].tasks[t].op, k)
    ensures !Deadlocked(ss[i], t)
  {
    var rank: Rank := a => Ring.Near(hashFn, digest, replicas, Ring.Signed(hashFn(k)), a);
    forall n | n in ss[0].nodes
      ensures Downhill(n, ss[0].nodes[n].ring, k, rank, ss[0].nodes.Keys)
    {
      ProperRingIsDownhill(n, ss[0].nodes[n].ring, digest, replicas, hashFn, ss[0].nodes.Keys, k);
    }
    forall j | 0 <= j < |steps|
      ensures Allowed(ss[j], steps[j], k, rank)
    {
      SameMembers(ss, steps, j);
      if steps[j].SetPeers? {
        ProperRingIsDownhill(steps[j].node, steps[j].ring, digest, replicas, hashFn, ss[0].nodes.Keys, k);
      }
    }
    Invariant(ss, steps, k, rank, i);
    if !ss[i].tasks[t].pc.Ended? {
      var path, inp := NoDeadlock(ss[i], t, k, rank);
    }
  }

  lemma {:induction false} SameMembers(ss: seq<State>, steps: seq<Step>, i: nat)
    requires IsRun(ss, steps) && i < |ss|
    ensures ss[i].nodes.Keys == ss[0].nodes.Keys
  {
    if i > 0 {
      SameMembers(ss, steps, i - 1);
      var s, step := ss[i - 1], steps[i - 1];
      assert Enabled(s, step) && ss[i] == Apply(s, step);
      if step.Run? {
        assert ss[i].nodes == s.nodes[s.tasks[step.t].node := ss[i].nodes[s.tasks[step.t].node]];
      }
    }
  }
}
