// Runs built phase by phase: what one task can do when nothing else moves.
module Paths {
  import opened Views
  import opened Wire
  import opened Protocol
  import Flight
  import Ring
  import Runs

  // Some run without evictions and without changes of peers leads from s to s'.
  ghost predicate Reaches(s: State, s': State) {
    exists steps {:trigger Runs.Leads(s, steps, s')} :: Runs.Leads(s, steps, s') && Plain(steps)
  }

  ghost predicate Plain(steps: seq<Step>) {
    forall step :: step in steps ==> step.Call? || step.Run?
  }

  // Such a path is a run of the machine from s to s'.
  lemma AsRun(s: State, s': State) returns (ss: seq<State>, steps: seq<Step>)
    requires Reaches(s, s')
    ensures IsRun(ss, steps) && Plain(steps) && ss[0] == s && ss[|steps|] == s'
  {
    var path :| Runs.Leads(s, path, s') && Plain(path);
    steps := path;
    ss := Runs.AsRun(s, steps, s');
  }

  lemma Here(s: State)
    ensures Reaches(s, s)
  {
    assert Runs.Leads(s, [], s) && Plain([]);
  }

  lemma Via(s: State, s1: State, s2: State)
    requires Reaches(s, s1) && Reaches(s1, s2)
    ensures Reaches(s, s2)
  {
    var a :| Runs.Leads(s, a, s1) && Plain(a);
    var b :| Runs.Leads(s1, b, s2) && Plain(b);
    Runs.Join(s, a, s1, b, s2);
    assert Plain(a + b);
  }

  lemma Takes(s: State, s1: State, step: Step)
    requires Reaches(s, s1) && Enabled(s1, step) && (step.Call? || step.Run?)
    ensures Reaches(s, Apply(s1, step))
  {
    Runs.One(s1, step);
    assert Plain([step]);
    Via(s, s1, Apply(s1, step));
  }

  // After some steps from s only task t and its node differ from s.
  ghost predicate Got(s: State, t: Tid, nd: Node, task: Task, s': State) {
    Reaches(s, s') && s'.nodes == s.nodes[task.node := nd] && s'.tasks == s.tasks[t := task]
  }

  // To go on from s with a task that is already there.
  lemma From(s: State, t: Tid)
    requires t in s.tasks && s.tasks[t].node in s.nodes
    ensures Got(s, t, s.nodes[s.tasks[t].node], s.tasks[t], s)
  {
    Here(s);
    assert s.nodes == s.nodes[s.tasks[t].node := s.nodes[s.tasks[t].node]];
    assert s.tasks == s.tasks[t := s.tasks[t]];
  }

  // The task makes one move that needs nothing from other tasks.
  lemma Tick(s: State, t: Tid, nd: Node, task: Task, s1: State, inp: Input)
    returns (nd': Node, task': Task, s2: State)
    requires Got(s, t, nd, task, s1) && !inp.Answer?
    requires var m := Next(nd, t, task, inp); m.Move? && m.spawn.None? && m.task.node == task.node
    ensures var m := Next(nd, t, task, inp); nd' == m.node && task' == m.task
    ensures Got(s, t, nd', task', s2)
  {
    var m := Next(nd, t, task, inp);
    nd', task', s2 := m.node, m.task, Apply(s1, Run(t, inp));
    Takes(s, s1, Run(t, inp));
  }

  // The task sends a request, which becomes task u.
  lemma Sends(s: State, t: Tid, inp: Input, u: Tid) returns (s': State)
    requires t in s.tasks && s.tasks[t].node in s.nodes && u !in s.tasks && ChildOf(inp) == Some(u)
    requires var m := Next(s.nodes[s.tasks[t].node], t, s.tasks[t], inp);
      m.Move? && m.spawn.Some? && m.spawn.value.node in s.nodes && m.node == s.nodes[s.tasks[t].node]
      && m.task.node == s.tasks[t].node
    ensures var m := Next(s.nodes[s.tasks[t].node], t, s.tasks[t], inp);
      Reaches(s, s') && s'.nodes == s.nodes && s'.tasks == s.tasks[t := m.task][u := m.spawn.value]
  {
    Here(s);
    s' := Apply(s, Run(t, inp));
    Takes(s, s, Run(t, inp));
    assert s.nodes == s.nodes[s.tasks[t].node := s.nodes[s.tasks[t].node]];
  }

  // The task takes the answer of task u.
  lemma Hears(s: State, t: Tid, u: Tid) returns (s': State)
    requires t in s.tasks && s.tasks[t].node in s.nodes && u in s.tasks && s.tasks[u].pc.Ended?
    requires var m := Next(s.nodes[s.tasks[t].node], t, s.tasks[t], Answer(u, OverWire(s.tasks[u].pc.outcome)));
      m.Move? && m.spawn.None? && m.node == s.nodes[s.tasks[t].node]
    ensures var m := Next(s.nodes[s.tasks[t].node], t, s.tasks[t], Answer(u, OverWire(s.tasks[u].pc.outcome)));
      Reaches(s, s') && s'.nodes == s.nodes && s'.tasks == s.tasks[t := m.task]
  {
    var step := Run(t, Answer(u, OverWire(s.tasks[u].pc.outcome)));
    Here(s);
    s' := Apply(s, step);
    Takes(s, s, step);
    assert s.nodes == s.nodes[s.tasks[t].node := s.nodes[s.tasks[t].node]];
  }

  lemma Called(s: State, t: Tid, n: Addr, op: Op) returns (s': State)
    requires t !in s.tasks && n in s.nodes && ClientOp(op)
    ensures Got(s, t, s.nodes[n], Task(n, op, Begin, FRESH), s')
  {
    s' := Apply(s, Call(t, n, op));
    Here(s);
    Takes(s, s, Call(t, n, op));
    assert s.nodes == s.nodes[n := s.nodes[n]];
  }

  // ---------- Do ----------

  // One move inside Do.
  lemma DoTick(s: State, t: Tid, nd: Node, task: Task, s1: State, g: Flight.Group<Result>, pc: Pc)
    returns (nd': Node, task': Task, s': State)
    requires Got(s, t, nd, task, s1) && HasKey(task.op) && InDo(task.pc) && !pc.Wait?
    requires NextDo(GroupOf(nd, task.op), t, task.op, task.pc) == DoMove(g, pc)
    ensures nd' == WithGroup(nd, task.op, g) && task' == task.(pc := pc) && Got(s, t, nd', task', s')
  {
    nd', task', s' := Tick(s, t, nd, task, s1, Go);
  }

  // The group after its leader t has stored its result, woken the others and left the map.
  function Finished(g: Flight.Group<Result>, t: Tid, key: Key, r: Result): (g': Flight.Group<Result>)
    requires t in g.calls
  {
    Flight.Delete(Flight.Signal(Flight.Store(g, t, r), t), key)
  }

  lemma Finishes(s: State, t: Tid, nd: Node, task: Task, s1: State)
    returns (nd': Node, task': Task, s': State)
    requires Got(s, t, nd, task, s1) && HasKey(task.op) && task.pc.Store? && task.pc.outcome.Return?
    requires t in GroupOf(nd, task.op).calls && GroupOf(nd, task.op).mu.None?
    ensures Got(s, t, nd', task', s') && task' == task.(pc := Ended(task.pc.outcome))
    ensures nd' == WithGroup(nd, task.op, Finished(GroupOf(nd, task.op), t, task.op.key, task.pc.outcome.result))
  {
    var o, g := task.pc.outcome, GroupOf(nd, task.op);
    var g1 := Flight.Store(g, t, o.result);
    nd', task', s' := DoTick(s, t, nd, task, s1, g1, Signal(o));
    var g2 := Flight.Signal(g1, t);
    nd', task', s' := DoTick(s, t, nd', task', s', g2, Delete(o));
    nd', task', s' := DoTick(s, t, nd', task', s', Flight.Delete(g2, task.op.key), Ended(o));
  }

  // ---------- the critical section ----------

  // What it does to the two caches.
  function Worked(nd: Node, job: Job): (nd': Node) {
    nd.(main := if job.Write? then nd.main[job.key := job.view] else nd.main - {job.key}, hot := nd.hot - {job.key})
  }

  lemma Locks(s: State, t: Tid, nd: Node, task: Task, s1: State) returns (nd': Node, task': Task, s': State)
    requires Got(s, t, nd, task, s1) && task.pc.Acquire? && nd.loads.mu.None?
    ensures Got(s, t, nd', task', s') && task' == task.(pc := AfterLock(task.pc.next))
    ensures nd' == Worked(nd, task.pc.job)
  {
    var j, th := task.pc.job, task.pc.next;
    nd', task', s' := Tick(s, t, nd, task, s1, Go);
    assert task' == task.(pc := First(j, th));
    nd', task', s' := Tick(s, t, nd', task', s', Go);
    assert task' == task.(pc := Second(j, th));
    nd', task', s' := Unlocks(s, t, nd, nd', task', s');
  }

  lemma Unlocks(s: State, t: Tid, nd0: Node, nd: Node, task: Task, s1: State)
    returns (nd': Node, task': Task, s': State)
    requires Got(s, t, nd, task, s1) && task.pc.Second? && nd0.loads.mu.None?
    requires var w := Worked(nd0, task.pc.job);
      nd == nd0.(loads := nd0.loads.(mu := Some(t)), main := if task.pc.job.Write? then w.main else nd0.main,
                 hot := if task.pc.job.Write? then nd0.hot else w.hot)
    ensures Got(s, t, nd', task', s') && task' == task.(pc := AfterLock(task.pc.next))
    ensures nd' == Worked(nd0, task.pc.job)
  {
    nd', task', s' := Tick(s, t, nd, task, s1, Go);
    assert task' == task.(pc := Release(task.pc.job, task.pc.next));
    nd', task', s' := Tick(s, t, nd', task', s', Go);
  }

  // ---------- a Get, phase by phase ----------

  const EPOCH := Time(0, 0)

  // The caches, the ring and the other groups are untouched.
  ghost predicate Same(nd: Node, nd': Node) {
    nd' == nd.(stats := nd'.stats, loads := nd'.loads)
  }

  // So many more Gets, hits and loads have been counted.
  predicate Tally(nd: Node, nd': Node, gets: nat, hits: nat, loads: nat) {
    && nd'.stats.gets == nd.stats.gets + gets && nd'.stats.hits == nd.stats.hits + hits
    && nd'.stats.loads == nd.stats.loads + loads
  }

  // From a lookup in main to the end of the missed lookup in hot.
  lemma MissesBoth(s: State, t: Tid, nd: Node, task: Task, s1: State) returns (nd': Node, task': Task, s': State)
    requires Got(s, t, nd, task, s1) && task.op.Get? && task.pc.LookMain? && nd.caching
    requires task.op.key !in nd.main && task.op.key !in nd.hot
    ensures Got(s, t, nd', task', s') && task' == task.(pc := Miss(task.pc.again)) && nd' == nd
  {
    nd', task', s' := Tick(s, t, nd, task, s1, At(EPOCH));
    assert task' == task.(pc := LookHot(task.pc.again)) && nd' == nd;
    nd', task', s' := Tick(s, t, nd', task', s', At(EPOCH));
  }

  predicate Fresh(nd: Node, task: Task) {
    task.op.Get? && !task.op.nilDest && task.pc.Begin? && nd.caching
    && task.op.key !in nd.main && task.op.key !in nd.hot
  }

  lemma ComesToTheDoor(s: State, t: Tid, nd: Node, task: Task, s1: State)
    returns (nd': Node, task': Task, s': State)
    requires Got(s, t, nd, task, s1) && Fresh(nd, task)
    ensures Got(s, t, nd', task', s') && task'.op == task.op && task'.node == task.node && task'.pc == Enter
    ensures Same(nd, nd') && nd'.loads == nd.loads && Tally(nd, nd', 1, 0, 1)
  {
    nd', task', s' := Tick(s, t, nd, task, s1, Go);
    assert task'.pc == LookMain(false);
    nd', task', s' := MissesBoth(s, t, nd', task', s');
    nd', task', s' := Tick(s, t, nd', task', s', Go);
  }

  predicate Free(nd: Node, k: Key) {
    nd.loads.mu.None? && k !in nd.loads.m
  }

  // Leads the flight, misses again, and is about to pick a peer.
  lemma Leads(s: State, t: Tid, nd: Node, task: Task, s1: State) returns (nd': Node, task': Task, s': State)
    requires Got(s, t, nd, task, s1) && Fresh(nd, task) && Free(nd, task.op.key)
    ensures Got(s, t, nd', task', s') && task'.op == task.op && task'.node == task.node && task'.pc == Pick
    ensures Same(nd, nd') && nd'.loads == Flight.Lead(nd.loads, task.op.key, t, Fail(LeaderPanicked))
    ensures Tally(nd, nd', 1, 0, 1)
  {
    nd', task', s' := ComesToTheDoor(s, t, nd, task, s1);
    nd', task', s' := Tick(s, t, nd', task', s', Go);
    assert task'.pc == LookMain(true);
    nd', task', s' := MissesBoth(s, t, nd', task', s');
    nd', task', s' := Tick(s, t, nd', task', s', Go);
  }

  // A key of its own it loads by itself; the value is not yet in the cache.
  lemma Loads(s: State, t: Tid, nd: Node, task: Task, s1: State, v: View)
    returns (nd': Node, task': Task, s': State)
    requires Got(s, t, nd, task, s1) && Fresh(nd, task) && Free(nd, task.op.key) && Ring.IsLocal(nd.ring, task.op.key)
    ensures Got(s, t, nd', task', s') && task'.op == task.op && task'.node == task.node && task'.pc == PopMain(v)
    ensures Same(nd, nd') && nd'.loads == Flight.Lead(nd.loads, task.op.key, t, Fail(LeaderPanicked))
    ensures Tally(nd, nd', 1, 0, 1)
  {
    nd', task', s' := Leads(s, t, nd, task, s1);
    nd', task', s' := Tick(s, t, nd', task', s', Go);
    assert task'.pc == RunGetter && task'.op == task.op && task'.node == task.node;
    nd', task', s' := RunsGetter(s, t, nd', task', s', v);
  }

  lemma RunsGetter(s: State, t: Tid, nd: Node, task: Task, s1: State, v: View)
    returns (nd': Node, task': Task, s': State)
    requires Got(s, t, nd, task, s1) && task.op.Get? && task.pc.RunGetter?
    ensures Got(s, t, nd', task', s') && task'.op == task.op && task'.node == task.node && task'.pc == PopMain(v)
    ensures Same(nd, nd') && nd'.loads == nd.loads && Tally(nd, nd', 0, 0, 0)
  {
    nd', task', s' := Tick(s, t, nd, task, s1, Load(Loaded(v)));
    assert task'.pc == CountLocal(Value(v));
    nd', task', s' := Tick(s, t, nd', task', s', Go);
  }

  // The loaded value goes into the main cache and the flight ends.
  lemma SavesAndEnds(s: State, t: Tid, nd: Node, task: Task, s1: State, v: View)
    returns (nd': Node, task': Task, s': State)
    requires Got(s, t, nd, task, s1) && task.op.Get? && task.pc == PopMain(v) && nd.caching
    requires t in nd.loads.calls && nd.loads.mu.None?
    ensures Got(s, t, nd', task', s') && task' == task.(pc := Ended(Return(Value(v))))
    ensures nd' == nd.(main := nd.main[task.op.key := v], loads := Finished(nd.loads, t, task.op.key, Value(v)))
  {
    nd', task', s' := Tick(s, t, nd, task, s1, Go);
    assert task' == task.(pc := Store(Return(Value(v))));
    nd', task', s' := Finishes(s, t, nd', task', s');
  }

  // A key of another node: about to ask its owner.
  lemma PicksPeer(s: State, t: Tid, nd: Node, task: Task, s1: State, p: Addr)
    returns (nd': Node, task': Task, s': State)
    requires Got(s, t, nd, task, s1) && Fresh(nd, task) && Free(nd, task.op.key)
    requires Ring.Pick(nd.ring, task.op.key) == Some(Ring.Peer(p, false))
    ensures Got(s, t, nd', task', s') && task'.op == task.op && task'.node == task.node && task'.pc == CallPeer(p)
    ensures Same(nd, nd') && nd'.loads == Flight.Lead(nd.loads, task.op.key, t, Fail(LeaderPanicked))
  {
    nd', task', s' := Leads(s, t, nd, task, s1);
    nd', task', s' := Tick(s, t, nd', task', s', Go);
  }

  // Task t puts the value into the cache it is meant for.
  lemma Populates(s: State, t: Tid, n: Addr, k: Key, v: View) returns (s': State)
    requires t in s.tasks && n in s.nodes && s.nodes[n].caching
    requires s.tasks[t].node == n && s.tasks[t].op == Get(k, false)
    requires s.tasks[t].pc == PopMain(v) || s.tasks[t].pc == PopHot(v)
    ensures Reaches(s, s') && t in s'.tasks && s'.tasks == s.tasks[t := s'.tasks[t]]
    ensures s.tasks[t].pc.PopMain? ==> s'.nodes == s.nodes[n := s.nodes[n].(main := s.nodes[n].main[k := v])]
    ensures s.tasks[t].pc.PopHot? ==> s'.nodes == s.nodes[n := s.nodes[n].(hot := s.nodes[n].hot[k := v])]
  {
    From(s, t);
    var nd, task;
    nd, task, s' := Tick(s, t, s.nodes[n], s.tasks[t], s, Go);
  }

  // ---------- a Set or a Remove up to its critical section ----------

  predicate IsWrite(op: Op) {
    op.Remove? || (op.Set? && op.key != "")
  }

  function JobOf(op: Op): (j: Job)
    requires IsWrite(op)
  {
    if op.Set? then Write(op.key, op.view) else Erase(op.key)
  }

  lemma WriteBegins(s: State, u: Tid, n: Addr, op: Op) returns (s': State)
    requires u !in s.tasks && n in s.nodes && IsWrite(op) && s.nodes[n].caching
    ensures Got(s, u, s.nodes[n], Task(n, op, Enter, FRESH), s')
  {
    s' := Called(s, u, n, op);
    var nd, task;
    nd, task, s' := Tick(s, u, s.nodes[n], Task(n, op, Begin, FRESH), s', Go);
  }

  // Leads its flight and picks the owner.
  lemma WriteLeads(s: State, u: Tid, nd: Node, task: Task, s1: State) returns (nd': Node, task': Task, s': State)
    requires Got(s, u, nd, task, s1) && IsWrite(task.op) && task.pc.Enter? && nd.caching
    requires GroupOf(nd, task.op).mu.None? && task.op.key !in GroupOf(nd, task.op).m
    ensures Got(s, u, nd', task', s') && task' == task.(pc := AfterPick(nd', task.op))
    ensures nd' == WithGroup(nd, task.op, Flight.Lead(GroupOf(nd, task.op), task.op.key, u, Fail(LeaderPanicked)))
  {
    var g := Flight.Lead(GroupOf(nd, task.op), task.op.key, u, Fail(LeaderPanicked));
    nd', task', s' := DoTick(s, u, nd, task, s1, g, PickOwner);
    nd', task', s' := Tick(s, u, nd', task', s', Go);
  }

  function AfterPick(nd: Node, op: Op): (pc: Pc)
    requires IsWrite(op)
  {
    var p := Ring.Pick(nd.ring, op.key);
    if p.None? then LocalPhase(nd, op, None)
    else if p.value.isSelf then LocalPhase(nd, op, Some(Client(nd.gen, p.value.address)))
    else CallOwner(Client(nd.gen, p.value.address))
  }

  // Nobody else is listed, so the fan-out ends at once.
  lemma WriteEnds(s: State, u: Tid, nd: Node, task: Task, s1: State) returns (nd': Node, task': Task, s': State)
    requires Got(s, u, nd, task, s1) && IsWrite(task.op) && task.pc.ListPeers?
    requires RestParcels(nd, task.op, task.pc.owner) == {} && (task.pc.owner.None? ==> Others(nd) == {})
    requires u in GroupOf(nd, task.op).calls && GroupOf(nd, task.op).mu.None?
    ensures Got(s, u, nd', task', s') && task' == task.(pc := Ended(Return(Done)))
    ensures nd' == WithGroup(nd, task.op, Finished(GroupOf(nd, task.op), u, task.op.key, Done))
  {
    nd', task', s' := Tick(s, u, nd, task, s1, Go);
    assert task' == task.(pc := FanOut(Fan({}, {}, map[], false, true))) && nd' == nd;
    nd', task', s' := Tick(s, u, nd', task', s', Go);
    assert task' == task.(pc := Store(Return(Done))) && nd' == nd;
    nd', task', s' := Finishes(s, u, nd', task', s');
  }
}
