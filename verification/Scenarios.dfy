// Runs that show where the guarantees end: a load that began before a removal or a Set writes its
// value afterwards, a Set that joins another is lost, a Set that overlaps a load leaves copies in
// both caches, a second look breaks the description of Loads, a batch removal leaves a copy at an
// owner, and a node whose ring takes it for a stranger waits for itself.
module Scenarios {
  import opened Views
  import opened Wire
  import opened Protocol
  import opened Paths
  import Flight
  import Ring

  function Quiescent(ring: Ring.Ring): (nd: Node) {
    Node(true, map[], map[], Flight.Empty(), Flight.Empty(), Flight.Empty(), 0, ring, Stats(0, 0, 0, 0, 0, 0, 0, 0))
  }

  // A cluster of these nodes with empty caches.
  function Cluster(rings: map<Addr, Ring.Ring>): (s: State) {
    State(map n | n in rings :: Quiescent(rings[n]), map[], [], {})
  }

  lemma ClusterStarts(rings: map<Addr, Ring.Ring>)
    ensures Init(Cluster(rings))
  {
  }

  predicate Empty(ring: Ring.Ring) {
    ring.points == [] && ring.clients == map[]
  }

  // ---------- a Set or a Remove on a node without peers ----------

  lemma WriteRuns(s: State, u: Tid, n: Addr, op: Op) returns (nd: Node, s': State)
    requires u !in s.tasks && n in s.nodes && IsWrite(op) && s.nodes[n].caching && Empty(s.nodes[n].ring)
    requires GroupOf(s.nodes[n], op).mu.None? && op.key !in GroupOf(s.nodes[n], op).m && s.nodes[n].loads.mu.None?
    ensures Got(s, u, nd, Task(n, op, Ended(Return(Done)), FRESH), s')
    ensures nd.main == Worked(s.nodes[n], JobOf(op)).main && nd.hot == Worked(s.nodes[n], JobOf(op)).hot
    ensures nd.caching && nd.loads == s.nodes[n].loads
  {
    s' := WriteBegins(s, u, n, op);
    var task := Task(n, op, Enter, FRESH);
    nd, task, s' := WriteLeads(s, u, s.nodes[n], task, s');
    nd, task, s' := Locks(s, u, nd, task, s');
    assert Others(nd) == {} && RestParcels(nd, op, None) == {};
    nd, task, s' := WriteEnds(s, u, nd, task, s');
  }

  // ---------- the load writes after the removal or the Set has returned ----------

  // s1: the operation has returned nil and its effect is in place. s2: an older load has undone it.
  lemma OlderLoadUndoesWrite(n: Addr, ring: Ring.Ring, op: Op, v: View) returns (s1: State, s2: State)
    requires IsWrite(op) && Empty(ring)
    ensures Init(Cluster(map[n := ring])) && Reaches(Cluster(map[n := ring]), s1) && Reaches(s1, s2)
    ensures 1 in s1.tasks && s1.tasks[1].op == op && s1.tasks[1].pc == Ended(Return(Done)) && n in s1.nodes
    ensures s1.nodes[n].main == if op.Set? then map[op.key := op.view] else map[]
    ensures n in s2.nodes && op.key in s2.nodes[n].main && s2.nodes[n].main[op.key] == v
  {
    var s0 := Cluster(map[n := ring]);
    ClusterStarts(map[n := ring]);
    s1, s2 := LoadWriteLoad(s0, n, op, v);
  }

  lemma LoadWriteLoad(s: State, n: Addr, op: Op, v: View) returns (s1: State, s2: State)
    requires n in s.nodes && s.nodes[n] == Quiescent(s.nodes[n].ring) && Empty(s.nodes[n].ring) && s.tasks == map[]
    requires IsWrite(op)
    ensures Reaches(s, s1) && Reaches(s1, s2) && n in s1.nodes && n in s2.nodes
    ensures 1 in s1.tasks && s1.tasks[1].op == op && s1.tasks[1].pc == Ended(Return(Done))
    ensures s1.nodes[n].main == if op.Set? then map[op.key := op.view] else map[]
    ensures op.key in s2.nodes[n].main && s2.nodes[n].main[op.key] == v
  {
    var s0 := LoadUnderWay(s, n, op.key, v);
    s1, s2 := WriteThenLoad(s0, n, op, v);
    Via(s, s0, s1);
  }

  // Task 0 has loaded v and not yet saved it.
  lemma LoadUnderWay(s: State, n: Addr, k: Key, v: View) returns (s': State)
    requires n in s.nodes && s.nodes[n] == Quiescent(s.nodes[n].ring) && Empty(s.nodes[n].ring) && s.tasks == map[]
    ensures Reaches(s, s') && s'.tasks.Keys == {0} && n in s'.nodes
    ensures s'.tasks[0].node == n && s'.tasks[0].op == Get(k, false) && s'.tasks[0].pc == PopMain(v)
    ensures Same(s.nodes[n], s'.nodes[n]) && Tally(s.nodes[n], s'.nodes[n], 1, 0, 1)
    ensures s'.nodes[n].loads == Flight.Lead(Flight.Empty(), k, 0, Fail(LeaderPanicked))
  {
    s' := Called(s, 0, n, Get(k, false));
    var nd, task;
    nd, task, s' := Loads(s, 0, s.nodes[n], Task(n, Get(k, false), Begin, FRESH), s', v);
  }

  lemma WriteThenLoad(s: State, n: Addr, op: Op, v: View) returns (s1: State, s2: State)
    requires n in s.nodes && IsWrite(op) && s.nodes[n].caching && Empty(s.nodes[n].ring) && s.tasks.Keys == {0}
    requires s.nodes[n].loads.mu.None? && GroupOf(s.nodes[n], op).mu.None? && op.key !in GroupOf(s.nodes[n], op).m
    requires s.tasks[0].node == n && s.tasks[0].op == Get(op.key, false) && s.tasks[0].pc == PopMain(v)
    ensures Reaches(s, s1) && Reaches(s1, s2) && n in s1.nodes && n in s2.nodes
    ensures 1 in s1.tasks && s1.tasks[1].op == op && s1.tasks[1].pc == Ended(Return(Done))
    ensures s1.nodes[n].main == Worked(s.nodes[n], JobOf(op)).main
    ensures op.key in s2.nodes[n].main && s2.nodes[n].main[op.key] == v
  {
    var nd;
    nd, s1 := WriteRuns(s, 1, n, op);
    s2 := Populates(s1, 0, n, op.key, v);
  }

  // ---------- a Set that joins another one ----------

  // Both Sets have returned nil; the value of the second is in no cache.
  lemma JoinedSetIsLost(n: Addr, ring: Ring.Ring, k: Key, v: View, w: View) returns (s': State)
    requires Empty(ring) && k != "" && v != w
    ensures Init(Cluster(map[n := ring])) && Reaches(Cluster(map[n := ring]), s') && s'.nodes.Keys == {n}
    ensures s'.tasks.Keys == {0, 1}
    ensures s'.tasks[0].op == Set(k, v) && s'.tasks[0].pc == Ended(Return(Done))
    ensures s'.tasks[1].op == Set(k, w) && s'.tasks[1].pc == Ended(Return(Done)) && s'.tasks[1].trail.joined == Some(0)
    ensures s'.nodes[n].main == map[k := v] && s'.nodes[n].hot == map[]
  {
    var s0 := Cluster(map[n := ring]);
    ClusterStarts(map[n := ring]);
    s' := SetsShareFlight(s0, n, k, v, w);
  }

  lemma SetsShareFlight(s: State, n: Addr, k: Key, v: View, w: View) returns (s': State)
    requires n in s.nodes && s.nodes[n] == Quiescent(s.nodes[n].ring) && Empty(s.nodes[n].ring) && s.tasks == map[]
    requires k != ""
    ensures Reaches(s, s') && s'.nodes.Keys == s.nodes.Keys && s'.tasks.Keys == {0, 1}
    ensures s'.tasks[0].op == Set(k, v) && s'.tasks[0].pc == Ended(Return(Done))
    ensures s'.tasks[1].op == Set(k, w) && s'.tasks[1].pc == Ended(Return(Done)) && s'.tasks[1].trail.joined == Some(0)
    ensures s'.nodes[n].main == map[k := v] && s'.nodes[n].hot == map[]
  {
    var s1 := TwoSets(s, n, k, v, w);
    s' := FirstSetEnds(s1, n, k, v);
    Via(s, s1, s');
  }

  // Task 0 is about to take the lock, and task 1 waits for it.
  lemma TwoSets(s: State, n: Addr, k: Key, v: View, w: View) returns (s': State)
    requires n in s.nodes && s.nodes[n] == Quiescent(s.nodes[n].ring) && Empty(s.nodes[n].ring) && s.tasks == map[]
    requires k != ""
    ensures Reaches(s, s') && n in s'.nodes && s'.tasks.Keys == {0, 1}
    ensures s'.nodes == s.nodes[n := s.nodes[n].(sets := Flight.Lead(Flight.Empty(), k, 0, Fail(LeaderPanicked)))]
    ensures s'.tasks[0] == Task(n, Set(k, v), Acquire(Write(k, v), ListFor(None)), FRESH)
    ensures s'.tasks[1] == Task(n, Set(k, w), Wait(0), FRESH.(joined := Some(0)))
  {
    var s1 := WriteBegins(s, 0, n, Set(k, v));
    var nd, task;
    nd, task, s1 := WriteLeads(s, 0, s.nodes[n], Task(n, Set(k, v), Enter, FRESH), s1);
    s' := SecondSetJoins(s1, n, k, w);
    Via(s, s1, s');
  }

  lemma SecondSetJoins(s: State, n: Addr, k: Key, w: View) returns (s': State)
    requires n in s.nodes && s.nodes[n].caching && s.tasks.Keys == {0} && k != ""
    requires s.nodes[n].sets.mu.None? && k in s.nodes[n].sets.m && s.nodes[n].sets.m[k] == 0
    ensures Reaches(s, s') && s'.nodes == s.nodes
    ensures s'.tasks == s.tasks[1 := Task(n, Set(k, w), Wait(0), FRESH.(joined := Some(0)))]
  {
    s' := WriteBegins(s, 1, n, Set(k, w));
    var nd, task;
    nd, task, s' := Tick(s, 1, s.nodes[n], Task(n, Set(k, w), Enter, FRESH), s', Go);
    assert s.nodes == s.nodes[n := s.nodes[n]];
  }

  // The leader finishes, and the one that waits takes its result.
  lemma FirstSetEnds(s: State, n: Addr, k: Key, v: View) returns (s': State)
    requires n in s.nodes && Empty(s.nodes[n].ring) && s.nodes[n].loads.mu.None? && s.nodes[n].sets.mu.None?
    requires s.tasks.Keys == {0, 1} && s.tasks[0] == Task(n, Set(k, v), Acquire(Write(k, v), ListFor(None)), FRESH)
    requires s.tasks[1].node == n && s.tasks[1].op.Set? && s.tasks[1].pc == Wait(0)
    requires 0 in s.nodes[n].sets.calls && k != ""
    ensures Reaches(s, s') && s'.nodes.Keys == s.nodes.Keys && s'.tasks.Keys == {0, 1}
    ensures s'.tasks[0] == s.tasks[0].(pc := Ended(Return(Done)))
    ensures s'.tasks[1] == s.tasks[1].(pc := Ended(Return(Done)))
    ensures s'.nodes[n].main == s.nodes[n].main[k := v] && s'.nodes[n].hot == s.nodes[n].hot - {k}
  {
    From(s, 0);
    var nd, task, s1 := Locks(s, 0, s.nodes[n], s.tasks[0], s);
    assert Others(nd) == {} && RestParcels(nd, task.op, None) == {};
    nd, task, s1 := WriteEnds(s, 0, nd, task, s1);
    s' := WaiterEnds(s1, n);
    Via(s, s1, s');
  }

  lemma WaiterEnds(s: State, n: Addr) returns (s': State)
    requires n in s.nodes && 1 in s.tasks && s.tasks[1].node == n && s.tasks[1].op.Set? && s.tasks[1].pc == Wait(0)
    requires 0 in s.nodes[n].sets.calls && s.nodes[n].sets.calls[0] == Flight.Call(true, Done)
    ensures Reaches(s, s') && s'.nodes == s.nodes && s'.tasks == s.tasks[1 := s.tasks[1].(pc := Ended(Return(Done)))]
  {
    From(s, 1);
    var nd, task;
    nd, task, s' := Tick(s, 1, s.nodes[n], s.tasks[1], s, Go);
    assert s.nodes == s.nodes[n := s.nodes[n]];
  }

  // ---------- a second look that hits ----------

  // The second Get misses before the first has saved its value and enters after the first has left:
  // it counts a load and a hit, so Loads is not Gets - CacheHits although no sink was nil.
  lemma SecondLookHits(n: Addr, ring: Ring.Ring, k: Key, v: View) returns (s': State)
    requires Empty(ring) && !Expired(v, EPOCH)
    ensures Init(Cluster(map[n := ring])) && Reaches(Cluster(map[n := ring]), s') && n in s'.nodes
    ensures s'.tasks.Keys == {0, 1}
    ensures s'.tasks[0].op == Get(k, false) && s'.tasks[0].pc == Ended(Return(Value(v)))
    ensures s'.tasks[1].op == Get(k, false) && s'.tasks[1].pc == Ended(Return(Value(v))) && s'.tasks[1].trail.rehit
    ensures var st := s'.nodes[n].stats; st.gets == 2 && st.hits == 1 && st.loads == 2 && st.loads != st.gets - st.hits
  {
    var s0 := Cluster(map[n := ring]);
    ClusterStarts(map[n := ring]);
    var s2 := BothUnderWay(s0, n, k, v);
    s' := FirstThenSecond(s2, n, k, v);
    Via(s0, s2, s');
  }

  lemma BothUnderWay(s: State, n: Addr, k: Key, v: View) returns (s': State)
    requires n in s.nodes && s.nodes[n] == Quiescent(s.nodes[n].ring) && Empty(s.nodes[n].ring) && s.tasks == map[]
    ensures Reaches(s, s') && s'.tasks.Keys == {0, 1} && n in s'.nodes
    ensures s'.tasks[0].node == n && s'.tasks[0].op == Get(k, false) && s'.tasks[0].pc == PopMain(v)
    ensures s'.tasks[1].node == n && s'.tasks[1].op == Get(k, false) && s'.tasks[1].pc == Enter
    ensures s'.nodes[n].caching && s'.nodes[n].loads.mu.None? && 0 in s'.nodes[n].loads.calls
    ensures Tally(s.nodes[n], s'.nodes[n], 2, 0, 2)
  {
    var s1 := LoadUnderWay(s, n, k, v);
    s' := SecondMisses(s1, n, k);
    Via(s, s1, s');
  }

  lemma FirstThenSecond(s: State, n: Addr, k: Key, v: View) returns (s': State)
    requires s.tasks.Keys == {0, 1} && n in s.nodes && !Expired(v, EPOCH)
    requires s.tasks[0].node == n && s.tasks[0].op == Get(k, false) && s.tasks[0].pc == PopMain(v)
    requires s.tasks[1].node == n && s.tasks[1].op == Get(k, false) && s.tasks[1].pc == Enter
    requires s.nodes[n].caching && s.nodes[n].loads.mu.None? && 0 in s.nodes[n].loads.calls
    ensures Reaches(s, s') && s'.tasks.Keys == {0, 1} && n in s'.nodes
    ensures s'.tasks[0].op == Get(k, false) && s'.tasks[0].pc == Ended(Return(Value(v)))
    ensures s'.tasks[1].op == Get(k, false) && s'.tasks[1].pc == Ended(Return(Value(v))) && s'.tasks[1].trail.rehit
    ensures Tally(s.nodes[n], s'.nodes[n], 0, 1, 0)
  {
    var s1 := FirstSaves(s, n, k, v);
    s' := SecondHits(s1, n, k, v);
    Via(s, s1, s');
  }

  lemma SecondMisses(s: State, n: Addr, k: Key) returns (s': State)
    requires n in s.nodes && s.nodes[n].caching && k !in s.nodes[n].main && k !in s.nodes[n].hot && s.tasks.Keys == {0}
    ensures Reaches(s, s') && s'.tasks.Keys == {0, 1} && s'.tasks[0] == s.tasks[0] && n in s'.nodes
    ensures s'.tasks[1].node == n && s'.tasks[1].op == Get(k, false) && s'.tasks[1].pc == Enter
    ensures Same(s.nodes[n], s'.nodes[n]) && s'.nodes[n].loads == s.nodes[n].loads
    ensures Tally(s.nodes[n], s'.nodes[n], 1, 0, 1)
  {
    s' := Called(s, 1, n, Get(k, false));
    var nd, task;
    nd, task, s' := ComesToTheDoor(s, 1, s.nodes[n], Task(n, Get(k, false), Begin, FRESH), s');
  }

  lemma FirstSaves(s: State, n: Addr, k: Key, v: View) returns (s': State)
    requires n in s.nodes && s.nodes[n].caching && s.tasks.Keys == {0, 1} && s.nodes[n].loads.mu.None?
    requires s.tasks[0].node == n && s.tasks[0].op == Get(k, false) && s.tasks[0].pc == PopMain(v)
    requires 0 in s.nodes[n].loads.calls
    ensures Reaches(s, s') && s'.tasks == s.tasks[0 := s.tasks[0].(pc := Ended(Return(Value(v))))] && n in s'.nodes
    ensures s'.nodes[n].caching && Free(s'.nodes[n], k) && k in s'.nodes[n].main && s'.nodes[n].main[k] == v
    ensures Tally(s.nodes[n], s'.nodes[n], 0, 0, 0)
  {
    From(s, 0);
    var nd, task;
    nd, task, s' := SavesAndEnds(s, 0, s.nodes[n], s.tasks[0], s, v);
  }

  lemma SecondHits(s: State, n: Addr, k: Key, v: View) returns (s': State)
    requires n in s.nodes && s.nodes[n].caching && Free(s.nodes[n], k) && s.tasks.Keys == {0, 1}
    requires k in s.nodes[n].main && s.nodes[n].main[k] == v && !Expired(v, EPOCH)
    requires s.tasks[1].node == n && s.tasks[1].op == Get(k, false) && s.tasks[1].pc == Enter
    ensures Reaches(s, s') && s'.tasks.Keys == {0, 1} && s'.tasks[0] == s.tasks[0] && n in s'.nodes
    ensures s'.tasks[1].op == Get(k, false) && s'.tasks[1].pc == Ended(Return(Value(v))) && s'.tasks[1].trail.rehit
    ensures Tally(s.nodes[n], s'.nodes[n], 0, 1, 0)
  {
    From(s, 1);
    var nd, task;
    nd, task, s' := EntersAndHits(s, s.nodes[n], s.tasks[1], s, v);
  }

  lemma EntersAndHits(s: State, nd: Node, task: Task, s1: State, v: View) returns (nd': Node, task': Task, s': State)
    requires Got(s, 1, nd, task, s1) && task.op.Get? && task.pc == Enter && nd.caching && Free(nd, task.op.key)
    requires task.op.key in nd.main && nd.main[task.op.key] == v && !Expired(v, EPOCH)
    ensures Got(s, 1, nd', task', s') && Tally(nd, nd', 0, 1, 0)
    ensures task' == task.(pc := Ended(Return(Value(v))), trail := task.trail.(rehit := true))
  {
    var g := Flight.Lead(nd.loads, task.op.key, 1, Fail(LeaderPanicked));
    nd', task', s' := DoTick(s, 1, nd, task, s1, g, LookMain(true));
    nd', task', s' := LooksAgain(s, nd', task', s', v);
    nd', task', s' := HitEnds(s, nd', task', s', v);
  }

  lemma LooksAgain(s: State, nd: Node, task: Task, s1: State, v: View) returns (nd': Node, task': Task, s': State)
    requires Got(s, 1, nd, task, s1) && task.op.Get? && task.pc == LookMain(true) && nd.caching
    requires task.op.key in nd.main && nd.main[task.op.key] == v && !Expired(v, EPOCH)
    ensures Got(s, 1, nd', task', s') && nd' == nd && task' == task.(pc := CountHit(true, v))
  {
    nd', task', s' := Tick(s, 1, nd, task, s1, At(EPOCH));
  }

  lemma HitEnds(s: State, nd: Node, task: Task, s1: State, v: View) returns (nd': Node, task': Task, s': State)
    requires Got(s, 1, nd, task, s1) && task.op.Get? && task.pc == CountHit(true, v)
    requires 1 in nd.loads.calls && nd.loads.mu.None?
    ensures Got(s, 1, nd', task', s') && Tally(nd, nd', 0, 1, 0)
    ensures task' == task.(pc := Ended(Return(Value(v))), trail := task.trail.(rehit := true))
  {
    nd', task', s' := Tick(s, 1, nd, task, s1, Go);
    assert task'.pc == Store(Return(Value(v)));
    nd', task', s' := Finishes(s, 1, nd', task', s');
  }

  // ---------- a peer is asked ----------

  // Task 0 on n leads the load of k and has sent it to p as task 1.
  lemma Asks(s: State, n: Addr, p: Addr, k: Key) returns (s': State)
    requires n in s.nodes && p in s.nodes && s.tasks == map[]
    requires s.nodes[n].caching && k !in s.nodes[n].main && k !in s.nodes[n].hot && Free(s.nodes[n], k)
    requires Ring.Pick(s.nodes[n].ring, k) == Some(Ring.Peer(p, false))
    ensures Reaches(s, s') && n in s'.nodes && s'.nodes == s.nodes[n := s'.nodes[n]]
    ensures s'.tasks.Keys == {0, 1} && s'.tasks[1] == Task(p, Get(k, false), Begin, FRESH)
    ensures s'.tasks[0].node == n && s'.tasks[0].op == Get(k, false) && s'.tasks[0].pc == AwaitPeer(p, 1)
    ensures Same(s.nodes[n], s'.nodes[n])
    ensures s'.nodes[n].loads == Flight.Lead(s.nodes[n].loads, k, 0, Fail(LeaderPanicked))
  {
    var s1 := AboutToAsk(s, n, p, k);
    s' := Sends(s1, 0, Send(1), 1);
    Via(s, s1, s');
  }

  lemma AboutToAsk(s: State, n: Addr, p: Addr, k: Key) returns (s': State)
    requires n in s.nodes && s.tasks == map[] && s.nodes[n].caching && k !in s.nodes[n].main && k !in s.nodes[n].hot
    requires Free(s.nodes[n], k) && Ring.Pick(s.nodes[n].ring, k) == Some(Ring.Peer(p, false))
    ensures Reaches(s, s') && n in s'.nodes && s'.nodes == s.nodes[n := s'.nodes[n]] && s'.tasks.Keys == {0}
    ensures s'.tasks[0].node == n && s'.tasks[0].op == Get(k, false) && s'.tasks[0].pc == CallPeer(p)
    ensures Same(s.nodes[n], s'.nodes[n])
    ensures s'.nodes[n].loads == Flight.Lead(s.nodes[n].loads, k, 0, Fail(LeaderPanicked))
  {
    s' := Called(s, 0, n, Get(k, false));
    var nd, task;
    nd, task, s' := PicksPeer(s, 0, s.nodes[n], Task(n, Get(k, false), Begin, FRESH), s', p);
  }

  // Task 1 on p loads v and answers; task 0 is about to put it into the hot cache of n.
  lemma Answers(s: State, n: Addr, p: Addr, k: Key, v: View) returns (s': State)
    requires n != p && n in s.nodes && p in s.nodes && s.tasks.Keys == {0, 1}
    requires s.tasks[1] == Task(p, Get(k, false), Begin, FRESH) && Fresh(s.nodes[p], s.tasks[1]) && Free(s.nodes[p], k)
    requires Ring.IsLocal(s.nodes[p].ring, k)
    requires s.tasks[0].node == n && s.tasks[0].op == Get(k, false) && s.tasks[0].pc == AwaitPeer(p, 1)
    ensures Reaches(s, s') && s'.tasks.Keys == {0, 1} && p in s'.nodes && s'.nodes == s.nodes[p := s'.nodes[p]]
    ensures s'.tasks[0].node == n && s'.tasks[0].op == Get(k, false) && s'.tasks[0].pc == PopHot(Carry(v))
    ensures var nd, nd' := s.nodes[p], s'.nodes[p];
      && nd'.caching && nd'.ring == nd.ring && nd'.gen == nd.gen && nd'.sets == nd.sets && nd'.removes == nd.removes
      && nd'.loads.mu.None? && nd'.main == nd.main[k := v] && nd'.hot == nd.hot
  {
    var s1 := OwnerLoads(s, p, k, v);
    s' := CallerHears(s1, n, p, k, v);
    Via(s, s1, s');
  }

  lemma CallerHears(s: State, n: Addr, p: Addr, k: Key, v: View) returns (s': State)
    requires n in s.nodes && s.tasks.Keys == {0, 1} && s.tasks[1].pc == Ended(Return(Value(v)))
    requires s.tasks[0].node == n && s.tasks[0].op == Get(k, false) && s.tasks[0].pc == AwaitPeer(p, 1)
    ensures Reaches(s, s') && s'.nodes == s.nodes && s'.tasks.Keys == {0, 1}
    ensures s'.tasks[0].node == n && s'.tasks[0].op == Get(k, false) && s'.tasks[0].pc == PopHot(Carry(v))
  {
    assert OverWire(s.tasks[1].pc.outcome) == Value(Carry(v));
    s' := Hears(s, 0, 1);
  }

  lemma OwnerLoads(s: State, p: Addr, k: Key, v: View) returns (s': State)
    requires p in s.nodes && 1 in s.tasks && s.tasks[1] == Task(p, Get(k, false), Begin, FRESH)
    requires Fresh(s.nodes[p], s.tasks[1]) && Free(s.nodes[p], k) && Ring.IsLocal(s.nodes[p].ring, k)
    ensures Reaches(s, s') && p in s'.nodes && s'.nodes == s.nodes[p := s'.nodes[p]]
    ensures 1 in s'.tasks && s'.tasks == s.tasks[1 := s'.tasks[1]] && s'.tasks[1].pc == Ended(Return(Value(v)))
    ensures var nd, nd' := s.nodes[p], s'.nodes[p];
      nd' == nd.(main := nd.main[k := v], loads := nd'.loads, stats := nd'.stats) && nd'.loads.mu.None?
  {
    From(s, 1);
    var nd, task;
    nd, task, s' := Loads(s, 1, s.nodes[p], s.tasks[1], s, v);
    nd, task, s' := SavesAndEnds(s, 1, nd, task, s', v);
  }

  // ---------- copies in both caches ----------

  // n and p are the members, p is the owner of k for both, and n's ring lists exactly these two.
  ghost predicate Owns(n: Addr, p: Addr, rn: Ring.Ring, rp: Ring.Ring, k: Key) {
    && Ring.Pick(rn, k) == Some(Ring.Peer(p, false)) && Ring.IsLocal(rp, k)
    && rn.clients == map[n := Ring.Peer(n, true), p := Ring.Peer(p, false)]
  }

  // A Set of another value, sent to the owner first, runs between the owner's answer to a Get and the
  // population of the hot cache: in the end main and hot of n hold different values.
  lemma OverlapLeavesTwoCopies(n: Addr, p: Addr, rn: Ring.Ring, rp: Ring.Ring, k: Key, v: View, w: View)
    returns (s': State)
    requires n != p && k != "" && Owns(n, p, rn, rp, k)
    ensures Init(Cluster(map[n := rn, p := rp])) && Reaches(Cluster(map[n := rn, p := rp]), s')
    ensures n in s'.nodes && p in s'.nodes && s'.nodes[n].loads.mu.None?
    ensures 2 in s'.tasks && s'.tasks[2].op == Set(k, w) && s'.tasks[2].pc == Ended(Return(Done))
    ensures k in s'.nodes[n].main && s'.nodes[n].main[k] == w && k in s'.nodes[n].hot && s'.nodes[n].hot[k] == Carry(v)
    ensures k in s'.nodes[p].main && s'.nodes[p].main[k] == Carry(w)
  {
    var s0 := Cluster(map[n := rn, p := rp]);
    ClusterStarts(map[n := rn, p := rp]);
    var s2 := LoadsFromOwner(s0, n, p, k, v);
    var s5 := SetRuns(s2, n, p, k, w);
    Via(s0, s2, s5);
    s' := Populates(s5, 0, n, k, Carry(v));
    Via(s0, s5, s');
  }

  // Both nodes are as they were, up to the copy of k at its owner, the flights and the counters.
  ghost predicate Undisturbed(s: State, s': State, n: Addr, p: Addr) {
    && s'.nodes.Keys == s.nodes.Keys && n in s.nodes && p in s.nodes
    && Same(s.nodes[n], s'.nodes[n]) && s'.nodes[n].loads.mu.None?
    && s'.nodes[p] == s.nodes[p].(main := s'.nodes[p].main, loads := s'.nodes[p].loads, stats := s'.nodes[p].stats)
    && s'.nodes[p].loads.mu.None?
  }

  lemma LoadsFromOwner(s: State, n: Addr, p: Addr, k: Key, v: View) returns (s': State)
    requires n != p && s.nodes.Keys == {n, p} && s.tasks == map[]
    requires s.nodes[n] == Quiescent(s.nodes[n].ring) && s.nodes[p] == Quiescent(s.nodes[p].ring)
    requires Ring.Pick(s.nodes[n].ring, k) == Some(Ring.Peer(p, false)) && Ring.IsLocal(s.nodes[p].ring, k)
    ensures Reaches(s, s') && Undisturbed(s, s', n, p) && s'.tasks.Keys == {0, 1}
    ensures s'.tasks[0].node == n && s'.tasks[0].op == Get(k, false) && s'.tasks[0].pc == PopHot(Carry(v))
  {
    var s1 := Asks(s, n, p, k);
    assert s1.nodes[p] == s.nodes[p];
    s' := Answers(s1, n, p, k, v);
    Via(s, s1, s');
    OnlyLoaded(s, s1, s', n, p);
  }

  lemma OnlyLoaded(s: State, s1: State, s': State, n: Addr, p: Addr)
    requires n != p && n in s.nodes && p in s.nodes && n in s1.nodes && s1.nodes == s.nodes[n := s1.nodes[n]]
    requires Same(s.nodes[n], s1.nodes[n]) && s1.nodes[n].loads.mu.None?
    requires p in s'.nodes && s'.nodes == s1.nodes[p := s'.nodes[p]] && s'.nodes[p].loads.mu.None?
    requires var nd, nd' := s1.nodes[p], s'.nodes[p];
      && nd'.caching == nd.caching && nd'.ring == nd.ring && nd'.gen == nd.gen && nd'.sets == nd.sets
      && nd'.removes == nd.removes && nd'.hot == nd.hot
    ensures Undisturbed(s, s', n, p)
  {
  }

  // The whole Set, with the request to the owner in the middle.
  lemma SetRuns(s: State, n: Addr, p: Addr, k: Key, w: View) returns (s': State)
    requires n != p && s.nodes.Keys == {n, p} && s.tasks.Keys == {0, 1} && k != ""
    requires s.nodes[n].caching && s.nodes[n].sets == Flight.Empty() && s.nodes[n].loads.mu.None?
    requires s.nodes[p].caching && s.nodes[p].loads.mu.None?
    requires Ring.Pick(s.nodes[n].ring, k) == Some(Ring.Peer(p, false))
    requires s.nodes[n].ring.clients == map[n := Ring.Peer(n, true), p := Ring.Peer(p, false)]
    ensures Reaches(s, s') && s'.nodes.Keys == {n, p} && s'.tasks.Keys == {0, 1, 2, 3} && s'.tasks[0] == s.tasks[0]
    ensures s'.tasks[2].op == Set(k, w) && s'.tasks[2].pc == Ended(Return(Done))
    ensures s'.nodes[n].caching && s'.nodes[n].loads.mu.None?
    ensures s'.nodes[n].main == s.nodes[n].main[k := w] && s'.nodes[n].hot == s.nodes[n].hot - {k}
    ensures s'.nodes[p].main == s.nodes[p].main[k := Carry(w)]
  {
    var s1 := SetAsksOwner(s, n, p, k, w);
    s' := OwnerThenCaller(s1, n, p, k, w);
    Via(s, s1, s');
  }

  lemma OwnerThenCaller(s: State, n: Addr, p: Addr, k: Key, w: View) returns (s': State)
    requires n != p && s.nodes.Keys == {n, p} && s.tasks.Keys == {0, 1, 2, 3} && k != ""
    requires s.tasks[2] == Task(n, Set(k, w), AwaitOwner(Client(s.nodes[n].gen, p), 3), FRESH)
    requires s.tasks[3] == Task(p, ServeSet(k, Carry(w)), Begin, FRESH)
    requires s.nodes[n].caching && s.nodes[n].loads.mu.None? && s.nodes[n].sets.mu.None? && 2 in s.nodes[n].sets.calls
    requires s.nodes[p].caching && s.nodes[p].loads.mu.None?
    requires s.nodes[n].ring.clients == map[n := Ring.Peer(n, true), p := Ring.Peer(p, false)]
    ensures Reaches(s, s') && s'.nodes.Keys == {n, p} && s'.tasks.Keys == {0, 1, 2, 3} && s'.tasks[0] == s.tasks[0]
    ensures s'.tasks[2].op == Set(k, w) && s'.tasks[2].pc == Ended(Return(Done))
    ensures s'.nodes[n].caching && s'.nodes[n].loads.mu.None?
    ensures s'.nodes[n].main == s.nodes[n].main[k := w] && s'.nodes[n].hot == s.nodes[n].hot - {k}
    ensures s'.nodes[p].main == s.nodes[p].main[k := Carry(w)]
  {
    var s1 := OwnerStores(s, n, p, k, w);
    s' := SetEnds(s1, n, p, k, w);
    Via(s, s1, s');
  }

  // Task 2 on n has sent its value to the owner as task 3.
  lemma SetAsksOwner(s: State, n: Addr, p: Addr, k: Key, w: View) returns (s': State)
    requires n in s.nodes && p in s.nodes && s.tasks.Keys == {0, 1} && k != ""
    requires s.nodes[n].caching && s.nodes[n].sets == Flight.Empty()
    requires Ring.Pick(s.nodes[n].ring, k) == Some(Ring.Peer(p, false))
    ensures Reaches(s, s') && n in s'.nodes && s'.nodes == s.nodes[n := s'.nodes[n]]
    ensures s'.nodes[n] == s.nodes[n].(sets := Flight.Lead(Flight.Empty(), k, 2, Fail(LeaderPanicked)))
    ensures s'.tasks == s.tasks[2 := Task(n, Set(k, w), AwaitOwner(Client(s.nodes[n].gen, p), 3), FRESH)]
                               [3 := Task(p, ServeSet(k, Carry(w)), Begin, FRESH)]
  {
    var s1 := SetPicksOwner(s, n, p, k, w);
    s' := Sends(s1, 2, Send(3), 3);
    Via(s, s1, s');
  }

  lemma SetPicksOwner(s: State, n: Addr, p: Addr, k: Key, w: View) returns (s': State)
    requires n in s.nodes && s.tasks.Keys == {0, 1} && k != ""
    requires s.nodes[n].caching && s.nodes[n].sets == Flight.Empty()
    requires Ring.Pick(s.nodes[n].ring, k) == Some(Ring.Peer(p, false))
    ensures Reaches(s, s')
    ensures s'.nodes == s.nodes[n := s.nodes[n].(sets := Flight.Lead(Flight.Empty(), k, 2, Fail(LeaderPanicked)))]
    ensures s'.tasks == s.tasks[2 := Task(n, Set(k, w), CallOwner(Client(s.nodes[n].gen, p)), FRESH)]
  {
    s' := WriteBegins(s, 2, n, Set(k, w));
    var nd, task;
    nd, task, s' := WriteLeads(s, 2, s.nodes[n], Task(n, Set(k, w), Enter, FRESH), s');
  }

  lemma OwnerStores(s: State, n: Addr, p: Addr, k: Key, w: View) returns (s': State)
    requires n != p && n in s.nodes && p in s.nodes && s.nodes[p].caching && s.nodes[p].loads.mu.None?
    requires 3 in s.tasks && s.tasks[3] == Task(p, ServeSet(k, Carry(w)), Begin, FRESH)
    ensures Reaches(s, s') && p in s'.nodes && s'.nodes == s.nodes[p := s'.nodes[p]]
    ensures s'.nodes[p] == Worked(s.nodes[p], Write(k, Carry(w)))
    ensures s'.tasks == s.tasks[3 := s.tasks[3].(pc := Ended(Return(Done)))]
  {
    From(s, 3);
    var nd, task;
    nd, task, s' := Tick(s, 3, s.nodes[p], s.tasks[3], s, Go);
    nd, task, s' := Locks(s, 3, nd, task, s');
  }

  // The owner has answered: the value is stored here, and nobody else is listed.
  lemma SetEnds(s: State, n: Addr, p: Addr, k: Key, w: View) returns (s': State)
    requires n in s.nodes && 2 in s.tasks && 3 in s.tasks && k != "" && s.tasks[3].pc == Ended(Return(Done))
    requires s.tasks[2] == Task(n, Set(k, w), AwaitOwner(Client(s.nodes[n].gen, p), 3), FRESH)
    requires s.nodes[n].ring.clients == map[n := Ring.Peer(n, true), p := Ring.Peer(p, false)]
    requires s.nodes[n].loads.mu.None? && s.nodes[n].sets.mu.None? && 2 in s.nodes[n].sets.calls
    ensures Reaches(s, s') && n in s'.nodes && s'.nodes == s.nodes[n := s'.nodes[n]]
    ensures var nd, nd' := s.nodes[n], s'.nodes[n];
      && nd'.caching == nd.caching && nd'.loads == nd.loads && nd'.main == nd.main[k := w] && nd'.hot == nd.hot - {k}
    ensures s'.tasks == s.tasks[2 := s.tasks[2].(pc := Ended(Return(Done)))]
  {
    var c := Client(s.nodes[n].gen, p);
    var s1 := Hears(s, 2, 3);
    assert s1.tasks[2] == s.tasks[2].(pc := Acquire(Write(k, w), ListFor(Some(c))));
    From(s1, 2);
    var nd, task;
    nd, task, s' := Locks(s1, 2, s1.nodes[n], s1.tasks[2], s1);
    NobodyElse(nd, task.op, c);
    nd, task, s' := WriteEnds(s1, 2, nd, task, s');
    Via(s, s1, s');
  }

  lemma NobodyElse(nd: Node, op: Op, c: Client)
    requires op.Set?
    requires forall a :: a in nd.ring.clients ==> nd.ring.clients[a].isSelf || nd.ring.clients[a].address == c.address
    ensures RestParcels(nd, op, Some(c)) == {}
  {
  }

  // ---------- a node that takes itself for a stranger ----------

  // Task 0 waits for the answer of task 1, which runs on the same node and waits for the flight of
  // task 0: unless a request is lost neither can ever take another step.
  lemma WaitsForItself(n: Addr, ring: Ring.Ring, k: Key) returns (s': State)
    requires Ring.Pick(ring, k) == Some(Ring.Peer(n, false))
    ensures Init(Cluster(map[n := ring])) && Reaches(Cluster(map[n := ring]), s')
    ensures s'.tasks.Keys == {0, 1} && s'.tasks[0].pc == AwaitPeer(n, 1) && s'.tasks[1].pc == Wait(0)
    ensures forall t, inp: Input :: t in s'.tasks && !inp.Lose? ==> !Enabled(s', Run(t, inp))
  {
    var s0 := Cluster(map[n := ring]);
    ClusterStarts(map[n := ring]);
    var s1 := Asks(s0, n, n, k);
    s' := Joins(s1, n, k);
    Via(s0, s1, s');
    Knotted(s', n);
  }

  // The request finds the flight of the task that sent it.
  lemma Joins(s: State, n: Addr, k: Key) returns (s': State)
    requires n in s.nodes && s.tasks.Keys == {0, 1} && s.tasks[1] == Task(n, Get(k, false), Begin, FRESH)
    requires Fresh(s.nodes[n], s.tasks[1])
    requires s.nodes[n].loads == Flight.Lead(Flight.Empty(), k, 0, Fail(LeaderPanicked))
    ensures Reaches(s, s') && s'.tasks.Keys == {0, 1} && s'.tasks[0] == s.tasks[0]
    ensures s'.tasks[1].node == n && s'.tasks[1].op.Get? && s'.tasks[1].pc == Wait(0)
    ensures n in s'.nodes && s'.nodes[n].loads == s.nodes[n].loads
  {
    From(s, 1);
    var nd, task;
    nd, task, s' := ComesToTheDoor(s, 1, s.nodes[n], s.tasks[1], s);
    nd, task, s' := Tick(s, 1, nd, task, s', Go);
  }

  lemma Knotted(s: State, n: Addr)
    requires s.tasks.Keys == {0, 1} && n in s.nodes && s.tasks[0].node == s.tasks[1].node == n
    requires s.tasks[0].op.Get? && s.tasks[1].op.Get? && s.tasks[0].pc == AwaitPeer(n, 1) && s.tasks[1].pc == Wait(0)
    requires 0 in s.nodes[n].loads.calls && !s.nodes[n].loads.calls[0].done
    ensures forall t, inp: Input :: t in s.tasks && !inp.Lose? ==> !Enabled(s, Run(t, inp))
  {
  }

  // ---------- a copy that a batch removal leaves behind ----------

  // n and p are the members; p owns k1 and n owns k2 for both of them.
  ghost predicate Shared(n: Addr, p: Addr, rn: Ring.Ring, rp: Ring.Ring, k1: Key, k2: Key) {
    && Ring.Pick(rn, k1) == Some(Ring.Peer(p, false)) && Ring.Pick(rn, k2) == Some(Ring.Peer(n, true))
    && Ring.Pick(rp, k2) == Some(Ring.Peer(n, false))
    && rn.clients == map[n := Ring.Peer(n, true), p := Ring.Peer(p, false)]
  }

  // p has fetched k2 from its owner n; then n removes k1 and k2 together. All requests are answered
  // and the removal returns nil, but p, being the owner of k1, was told about k1 only.
  lemma BatchLeavesCopy(n: Addr, p: Addr, rn: Ring.Ring, rp: Ring.Ring, k1: Key, k2: Key, v: View) returns (s': State)
    requires n != p && k1 != k2 && Shared(n, p, rn, rp, k1, k2)
    ensures Init(Cluster(map[n := rn, p := rp])) && Reaches(Cluster(map[n := rn, p := rp]), s')
    ensures 2 in s'.tasks && s'.tasks[2].node == n && s'.tasks[2].op == RemoveKeys([k1, k2])
    ensures s'.tasks[2].pc == Ended(Return(Done))
    ensures p in s'.nodes && k2 in s'.nodes[p].hot && s'.nodes[p].hot[k2] == Carry(v)
  {
    var s0 := Cluster(map[n := rn, p := rp]);
    ClusterStarts(map[n := rn, p := rp]);
    var s1 := LoadsFromOwner(s0, p, n, k2, v);
    s' := CopiedThenRemoved(s1, n, p, k1, k2, Carry(v));
    Via(s0, s1, s');
  }

  lemma CopiedThenRemoved(s: State, n: Addr, p: Addr, k1: Key, k2: Key, v: View) returns (s': State)
    requires n != p && s.nodes.Keys == {n, p} && s.tasks.Keys == {0, 1} && k1 != k2
    requires s.nodes[n].caching && s.nodes[n].loads.mu.None? && s.nodes[p].caching && s.nodes[p].loads.mu.None?
    requires s.tasks[0].node == p && s.tasks[0].op == Get(k2, false) && s.tasks[0].pc == PopHot(v)
    requires Ring.Pick(s.nodes[n].ring, k1) == Some(Ring.Peer(p, false))
    requires Ring.Pick(s.nodes[n].ring, k2) == Some(Ring.Peer(n, true))
    requires s.nodes[n].ring.clients == map[n := Ring.Peer(n, true), p := Ring.Peer(p, false)]
    ensures Reaches(s, s') && p in s'.nodes && k2 in s'.nodes[p].hot && s'.nodes[p].hot[k2] == v
    ensures 2 in s'.tasks && s'.tasks[2].node == n && s'.tasks[2].op == RemoveKeys([k1, k2])
    ensures s'.tasks[2].pc == Ended(Return(Done))
  {
    var s1 := Copied(s, n, p, k2, v);
    s' := BatchRuns(s1, n, p, k1, k2);
    Via(s, s1, s');
  }

  lemma Copied(s: State, n: Addr, p: Addr, k: Key, v: View) returns (s': State)
    requires n != p && n in s.nodes && p in s.nodes && 0 in s.tasks && s.nodes[p].caching
    requires s.tasks[0].node == p && s.tasks[0].op == Get(k, false) && s.tasks[0].pc == PopHot(v)
    ensures Reaches(s, s') && s'.nodes.Keys == s.nodes.Keys && s'.tasks.Keys == s.tasks.Keys
    ensures s'.nodes[n] == s.nodes[n] && s'.nodes[p].caching && s'.nodes[p].loads == s.nodes[p].loads
    ensures s'.nodes[p].hot == s.nodes[p].hot[k := v]
  {
    s' := Populates(s, 0, p, k, v);
  }

  // What the removal leaves at p.
  lemma BatchRuns(s: State, n: Addr, p: Addr, k1: Key, k2: Key) returns (s': State)
    requires n != p && s.nodes.Keys == {n, p} && s.tasks.Keys == {0, 1} && k1 != k2
    requires s.nodes[n].caching && s.nodes[n].loads.mu.None? && s.nodes[p].caching && s.nodes[p].loads.mu.None?
    requires Ring.Pick(s.nodes[n].ring, k1) == Some(Ring.Peer(p, false))
    requires Ring.Pick(s.nodes[n].ring, k2) == Some(Ring.Peer(n, true))
    requires s.nodes[n].ring.clients == map[n := Ring.Peer(n, true), p := Ring.Peer(p, false)]
    ensures Reaches(s, s') && p in s'.nodes && s'.nodes[p].hot == s.nodes[p].hot - {k1}
    ensures 2 in s'.tasks && s'.tasks[2].node == n && s'.tasks[2].op == RemoveKeys([k1, k2])
    ensures s'.tasks[2].pc == Ended(Return(Done))
  {
    var c := Client(s.nodes[n].gen, p);
    var s1 := BatchSorted(s, n, p, k1, k2);
    OnlyOther(s1.nodes[n], n, p);
    var s2 := BatchErased(s1, n, c, k1, k2);
    Via(s, s1, s2);
    s' := BatchSent(s2, n, p, k1, k2);
    Via(s, s2, s');
  }

  lemma OnlyOther(nd: Node, n: Addr, p: Addr)
    requires n != p && nd.ring.clients == map[n := Ring.Peer(n, true), p := Ring.Peer(p, false)]
    ensures Others(nd) == {Client(nd.gen, p)}
  {
    assert p in nd.ring.clients;
  }

  lemma OneKey(c: Client, k: Key)
    ensures Appended(map[], c, k) == map[c := [k]]
    ensures OwnerParcels(map[c := [k]]) == {Parcel(c, ServeRemove([k]))}
  {
    var none: seq<Key> := [];
    assert none + [k] == [k];
    assert c in map[c := [k]];
  }

  lemma BatchSorted(s: State, n: Addr, p: Addr, k1: Key, k2: Key) returns (s': State)
    requires n in s.nodes && s.nodes[n].caching && s.tasks.Keys == {0, 1}
    requires Ring.Pick(s.nodes[n].ring, k1) == Some(Ring.Peer(p, false))
    requires Ring.Pick(s.nodes[n].ring, k2) == Some(Ring.Peer(n, true))
    ensures Reaches(s, s') && s'.nodes == s.nodes
    ensures var c := Client(s.nodes[n].gen, p);
      s'.tasks == s.tasks[2 := Task(n, RemoveKeys([k1, k2]), Sort(2, map[c := [k1]]), FRESH)]
  {
    var op, c := RemoveKeys([k1, k2]), Client(s.nodes[n].gen, p);
    s' := Called(s, 2, n, op);
    var nd, task;
    nd, task, s' := Tick(s, 2, s.nodes[n], Task(n, op, Begin, FRESH), s', Go);
    assert s.nodes == s.nodes[n := s.nodes[n]];
    nd, task, s' := KeysSorted(s, nd, task, s', c, k1, k2);
  }

  lemma KeysSorted(s: State, nd: Node, task: Task, s1: State, c: Client, k1: Key, k2: Key)
    returns (nd': Node, task': Task, s': State)
    requires Got(s, 2, nd, task, s1) && task.op == RemoveKeys([k1, k2]) && task.pc == Sort(0, map[]) && c.gen == nd.gen
    requires Ring.Pick(nd.ring, k1) == Some(Ring.Peer(c.address, false))
    requires var o := Ring.Pick(nd.ring, k2); o.Some? && o.value.isSelf
    ensures Got(s, 2, nd', task', s') && nd' == nd && task' == task.(pc := Sort(2, map[c := [k1]]))
  {
    OneKey(c, k1);
    nd', task', s' := SortTick(s, nd, task, s1, map[c := [k1]]);
    nd', task', s' := SortTick(s, nd', task', s', map[c := [k1]]);
  }

  lemma SortTick(s: State, nd: Node, task: Task, s1: State, batch: map<Client, seq<Key>>)
    returns (nd': Node, task': Task, s': State)
    requires Got(s, 2, nd, task, s1) && task.op.RemoveKeys? && task.pc.Sort? && task.pc.i < |task.op.keys|
    requires var o, k := Ring.Pick(nd.ring, task.op.keys[task.pc.i]), task.op.keys[task.pc.i];
      batch == if o.None? || o.value.isSelf then task.pc.batch
               else Appended(task.pc.batch, Client(nd.gen, o.value.address), k)
    ensures Got(s, 2, nd', task', s') && nd' == nd && task' == task.(pc := Sort(task.pc.i + 1, batch))
  {
    nd', task', s' := Tick(s, 2, nd, task, s1, Go);
  }

  // The caller drops its own copies; one request is to be sent, and nobody else is listed.
  lemma BatchErased(s: State, n: Addr, c: Client, k1: Key, k2: Key) returns (s': State)
    requires n in s.nodes && s.nodes[n].caching && s.nodes[n].loads.mu.None? && 2 in s.tasks
    requires s.tasks[2] == Task(n, RemoveKeys([k1, k2]), Sort(2, map[c := [k1]]), FRESH)
    requires Others(s.nodes[n]) == {c}
    ensures Reaches(s, s') && n in s'.nodes && s'.nodes == s.nodes[n := s'.nodes[n]]
    ensures s'.nodes[n].gen == s.nodes[n].gen
    ensures var f := Fan({c}, {Parcel(c, ServeRemove([k1]))}, map[], false, true);
      s'.tasks == s.tasks[2 := s.tasks[2].(pc := FanOut(f))]
  {
    From(s, 2);
    var batch := map[c := [k1]];
    var nd, task;
    nd, task, s' := Tick(s, 2, s.nodes[n], s.tasks[2], s, Go);
    assert [k1, k2][1..] == [k2] && [k2][1..] == [];
    assert task == s.tasks[2].(pc := Acquire(Erase(k1), EraseMore([k2], Some(batch))));
    nd, task, s' := Locks(s, 2, nd, task, s');
    assert task == s.tasks[2].(pc := Acquire(Erase(k2), EraseMore([], Some(batch))));
    nd, task, s' := Locks(s, 2, nd, task, s');
    nd, task, s' := BatchListed(s, 2, nd, task, s', c, k1);
  }

  lemma BatchListed(s: State, t: Tid, nd: Node, task: Task, s1: State, c: Client, k1: Key)
    returns (nd': Node, task': Task, s': State)
    requires Got(s, t, nd, task, s1) && task.op.RemoveKeys? && task.pc == EraseNext([], Some(map[c := [k1]]))
    requires Others(nd) == {c}
    ensures Got(s, t, nd', task', s') && nd' == nd
    ensures task' == task.(pc := FanOut(Fan({c}, {Parcel(c, ServeRemove([k1]))}, map[], false, true)))
  {
    var batch := map[c := [k1]];
    OneKey(c, k1);
    assert batch.Keys == {c};
    assert BroadcastParcels(nd, task.op.keys, {c}) == {};
    var f := Fan({c}, {Parcel(c, ServeRemove([k1]))}, map[], false, false);
    assert task.pc == FanOut(f) && f.todo + {} == f.todo;
    nd', task', s' := Tick(s, t, nd, task, s1, Go);
  }

  // The request is sent, served and answered.
  lemma BatchSent(s: State, n: Addr, p: Addr, k1: Key, k2: Key) returns (s': State)
    requires n != p && s.nodes.Keys == {n, p} && s.tasks.Keys == {0, 1, 2}
    requires s.nodes[p].caching && s.nodes[p].loads.mu.None?
    requires var c := Client(s.nodes[n].gen, p);
      s.tasks[2] == Task(n, RemoveKeys([k1, k2]),
                         FanOut(Fan({c}, {Parcel(c, ServeRemove([k1]))}, map[], false, true)), FRESH)
    ensures Reaches(s, s') && p in s'.nodes && s'.nodes[p].hot == s.nodes[p].hot - {k1}
    ensures 2 in s'.tasks && s'.tasks[2] == s.tasks[2].(pc := Ended(Return(Done)))
  {
    var c := Client(s.nodes[n].gen, p);
    var q := Parcel(c, ServeRemove([k1]));
    var s1 := Sends(s, 2, Dispatch(q, 3), 3);
    var s2 := OwnerErases(s1, p, k1);
    Via(s, s1, s2);
    s' := BatchAnswered(s2, n, q);
    Via(s, s2, s');
  }

  lemma OwnerErases(s: State, p: Addr, k: Key) returns (s': State)
    requires p in s.nodes && s.nodes[p].caching && s.nodes[p].loads.mu.None?
    requires 3 in s.tasks && s.tasks[3] == Task(p, ServeRemove([k]), Begin, FRESH)
    ensures Reaches(s, s') && s'.nodes == s.nodes[p := Worked(s.nodes[p], Erase(k))]
    ensures s'.tasks == s.tasks[3 := s.tasks[3].(pc := Ended(Return(Done)))]
  {
    From(s, 3);
    var nd, task;
    nd, task, s' := Tick(s, 3, s.nodes[p], s.tasks[3], s, Go);
    assert [k][1..] == [];
    assert task == s.tasks[3].(pc := Acquire(Erase(k), EraseMore([], None)));
    nd, task, s' := Locks(s, 3, nd, task, s');
  }

  lemma BatchAnswered(s: State, n: Addr, q: Parcel) returns (s': State)
    requires n in s.nodes && 2 in s.tasks && 3 in s.tasks && s.tasks[3].pc == Ended(Return(Done))
    requires s.tasks[2].node == n && s.tasks[2].op.RemoveKeys?
    requires s.tasks[2].pc == FanOut(Fan({q.to}, {}, map[3 := q], false, true))
    ensures Reaches(s, s') && s'.nodes == s.nodes && s'.tasks == s.tasks[2 := s.tasks[2].(pc := Ended(Return(Done)))]
  {
    var s1 := LastAnswer(s, n, q);
    s' := BatchEnds(s1, n, q);
    Via(s, s1, s');
  }

  lemma LastAnswer(s: State, n: Addr, q: Parcel) returns (s': State)
    requires n in s.nodes && 2 in s.tasks && 3 in s.tasks && s.tasks[3].pc == Ended(Return(Done))
    requires s.tasks[2].node == n && s.tasks[2].op.RemoveKeys?
    requires s.tasks[2].pc == FanOut(Fan({q.to}, {}, map[3 := q], false, true))
    ensures Reaches(s, s') && s'.nodes == s.nodes
    ensures s'.tasks == s.tasks[2 := s.tasks[2].(pc := FanOut(Fan({q.to}, {}, map[], false, true)))]
  {
    assert map[3 := q] - {3} == map[];
    s' := Hears(s, 2, 3);
  }

  lemma BatchEnds(s: State, n: Addr, q: Parcel) returns (s': State)
    requires n in s.nodes && 2 in s.tasks && s.tasks[2].node == n && s.tasks[2].op.RemoveKeys?
    requires s.tasks[2].pc == FanOut(Fan({q.to}, {}, map[], false, true))
    ensures Reaches(s, s') && s'.nodes == s.nodes && s'.tasks == s.tasks[2 := s.tasks[2].(pc := Ended(Return(Done)))]
  {
    From(s, 2);
    var nd, task;
    nd, task, s' := Tick(s, 2, s.nodes[n], s.tasks[2], s, Go);
    assert s.nodes == s.nodes[n := s.nodes[n]];
  }
}
