// Which task waits for which, and what it means that an operation is deadlocked.
module Blocking {
  import opened Views
  import opened Protocol
  import Flights

  // Decisions of the environment that are not failures: requests are delivered and answered, the
  // context is alive and the getter returns a value.
  predicate Faultless(inp: Input) {
    || inp.Go? || inp.At? || (inp.Load? && inp.out.Loaded?) || inp.Send? || inp.Dispatch? || inp.Answer?
    || (inp.Ctx? && inp.live)
  }

  // Task t waits for task u: for its flight, its answer or its lock.
  ghost predicate Blocks(s: State, t: Tid, u: Tid)
    requires t in s.tasks && s.tasks[t].node in s.nodes
  {
    var nd := s.nodes[s.tasks[t].node];
    match s.tasks[t].pc
    case Wait(c) => u == c
    case AwaitPeer(_, c) => u == c
    case AwaitOwner(_, c) => u == c
    case FanOut(f) => f.todo == {} && u in f.out
    case Enter => GroupOf(nd, s.tasks[t].op).mu == Some(u)
    case Delete(_) => GroupOf(nd, s.tasks[t].op).mu == Some(u)
    case Acquire(_, _) => nd.loads.mu == Some(u)
    case _ => false
  }

  // A chain of tasks, each waiting for the next.
  ghost predicate Chain(s: State, path: seq<Tid>) {
    && path != []
    && (forall i :: 0 <= i < |path| ==> path[i] in s.tasks && s.tasks[path[i]].node in s.nodes)
    && (forall i :: 0 <= i < |path| - 1 ==> Blocks(s, path[i], path[i + 1]))
  }

  // The chain starts at t and its last task can go on without any failure.
  ghost predicate Unblocks(s: State, t: Tid, path: seq<Tid>, inp: Input) {
    Chain(s, path) && path[0] == t && Faultless(inp) && Enabled(s, Run(path[|path| - 1], inp))
  }

  // An unfinished task that waits, in however many steps, only for tasks that cannot go on.
  ghost predicate Deadlocked(s: State, t: Tid) {
    t in s.tasks && !s.tasks[t].pc.Ended? && forall path, inp :: !Unblocks(s, t, path, inp)
  }

  lemma {:induction false} Bound(ids: set<Tid>) returns (b: nat)
    ensures forall t :: t in ids ==> t < b
    decreases |ids|
  {
    if ids == {} {
      b := 0;
    } else {
      var t :| t in ids;
      var rest := Bound(ids - {t});
      b := if t < rest then rest else t + 1;
      assert ids == (ids - {t}) + {t};
    }
  }

  // A task inside a critical section can always go on.
  lemma HolderRuns(s: State, h: Tid)
    requires Flights.Inv(s) && h in s.tasks && Flights.HoldsLock(s.tasks[h].pc)
    ensures s.tasks[h].node in s.nodes && Enabled(s, Run(h, Go))
  {
    assert Flights.TaskOk(s, h);
  }

  // So a task held up by the lock waits for one that can.
  lemma HeldUp(s: State, t: Tid) returns (path: seq<Tid>)
    requires Flights.Inv(s) && t in s.tasks && s.tasks[t].node in s.nodes && s.nodes[s.tasks[t].node].loads.mu.Some?
    requires s.tasks[t].pc.Acquire? || (s.tasks[t].op.Get? && (s.tasks[t].pc.Enter? || s.tasks[t].pc.Delete?))
    ensures Unblocks(s, t, path, Go)
  {
    var h := s.nodes[s.tasks[t].node].loads.mu.value;
    assert Flights.NodeOk(s, s.tasks[t].node);
    HolderRuns(s, h);
    path := [t, h];
  }

  lemma Prepend(s: State, t: Tid, rest: seq<Tid>, inp: Input)
    requires t in s.tasks && s.tasks[t].node in s.nodes && rest != [] && Blocks(s, t, rest[0])
    requires Unblocks(s, rest[0], rest, inp)
    ensures Unblocks(s, t, [t] + rest, inp)
  {
    var path := [t] + rest;
    forall i | 0 <= i < |path| - 1
      ensures Blocks(s, path[i], path[i + 1])
    {
      if i > 0 {
        assert Blocks(s, rest[i - 1], rest[i]);
      }
    }
  }

  lemma Alone(s: State, t: Tid, inp: Input)
    requires Faultless(inp) && Enabled(s, Run(t, inp))
    ensures Unblocks(s, t, [t], inp)
  {
  }
}
