// When forwarding can deadlock: with fixed peer lists some run blocks a Get of k for good if and only
// if following the picks of k from some node leads back to that node.
module Cycles {
  import opened Views
  import opened Wire
  import opened Protocol
  import opened Blocking
  import opened Paths
  import Flight
  import Hops
  import Quiet
  import Ring
  import Scenarios
  import Ties

  type Rings = map<Addr, Ring.Ring>

  // Whom node n forwards k to.
  function Hop(rings: Rings, k: Key, n: Addr): (p: Option<Addr>) {
    if n !in rings then None
    else
      var p := Ring.Pick(rings[n], k);
      if p.Some? && !p.value.isSelf then Some(p.value.address) else None
  }

  // Where a request for k that starts at n is after j hops.
  function Follow(rings: Rings, k: Key, n: Addr, j: nat): (m: Option<Addr>) {
    if j == 0 then Some(n)
    else
      var m := Follow(rings, k, n, j - 1);
      if m.None? then None else Hop(rings, k, m.value)
  }

  ghost predicate LeadsTo(rings: Rings, k: Key, n: Addr, m: Addr) {
    exists j :: Follow(rings, k, n, j) == Some(m)
  }

  ghost predicate OnCycle(rings: Rings, k: Key, n: Addr) {
    n in rings && exists j :: j > 0 && Follow(rings, k, n, j) == Some(n)
  }

  // Every peer that is asked for k exists.
  ghost predicate Closed(rings: Rings, k: Key) {
    forall n :: n in rings && Hop(rings, k, n).Some? ==> Hop(rings, k, n).value in rings
  }

  ghost predicate Uses(s: State, rings: Rings) {
    s.nodes.Keys == rings.Keys && forall n :: n in rings ==> s.nodes[n].ring == rings[n]
  }

  lemma {:induction false} FirstHop(rings: Rings, k: Key, n: Addr, p: Addr, j: nat)
    requires Hop(rings, k, n) == Some(p)
    ensures Follow(rings, k, n, j + 1) == Follow(rings, k, p, j)
  {
    if j > 0 {
      FirstHop(rings, k, n, p, j - 1);
    } else {
      assert Follow(rings, k, n, 0) == Some(n);
    }
  }

  // ---------- without a cycle requests run downhill ----------

  // The members a request for k at n may come to.
  ghost function Ahead(rings: Rings, k: Key, n: Addr): (ms: set<Addr>) {
    set m | m in rings && LeadsTo(rings, k, n, m)
  }

  lemma Smaller(a: set<Addr>, b: set<Addr>)
    requires a < b
    ensures |a| < |b|
  {
    assert b == a + (b - a);
  }

  lemma AheadShrinks(rings: Rings, k: Key, n: Addr, p: Addr)
    requires n in rings && Hop(rings, k, n) == Some(p) && !OnCycle(rings, k, n)
    ensures |Ahead(rings, k, p)| < |Ahead(rings, k, n)|
  {
    assert Follow(rings, k, n, 0) == Some(n);
    assert n in Ahead(rings, k, n);
    forall m | m in Ahead(rings, k, p)
      ensures m in Ahead(rings, k, n) && m != n
    {
      var j :| Follow(rings, k, p, j) == Some(m);
      FirstHop(rings, k, n, p, j);
    }
    Smaller(Ahead(rings, k, p), Ahead(rings, k, n));
  }

  lemma AcyclicIsDownhill(rings: Rings, k: Key, n: Addr)
    requires Closed(rings, k) && n in rings && !OnCycle(rings, k, n)
    ensures Hops.Downhill(n, rings[n], k, a => |Ahead(rings, k, a)|, rings.Keys)
  {
    var p := Hop(rings, k, n);
    if p.Some? {
      AheadShrinks(rings, k, n, p.value);
    }
  }

  lemma AcyclicNeverDeadlocks(ss: seq<State>, steps: seq<Step>, rings: Rings, k: Key, i: nat, t: Tid)
    requires IsRun(ss, steps) && Init(ss[0]) && Uses(ss[0], rings) && Closed(rings, k) && i < |ss|
    requires forall j :: 0 <= j < |steps| ==> !steps[j].SetPeers?
    requires forall n :: !OnCycle(rings, k, n)
    requires t in ss[i].tasks && Quiet.IsGet(ss[i].tasks[t].op, k)
    ensures !Deadlocked(ss[i], t)
  {
    var rank: Hops.Rank := a => |Ahead(rings, k, a)|;
    forall n | n in ss[0].nodes
      ensures Hops.Downhill(n, ss[0].nodes[n].ring, k, rank, ss[0].nodes.Keys)
    {
      AcyclicIsDownhill(rings, k, n);
    }
    Hops.Invariant(ss, steps, k, rank, i);
    if !ss[i].tasks[t].pc.Ended? {
      var path, inp := Hops.NoDeadlock(ss[i], t, k, rank);
    }
  }

  // ---------- along a cycle every node leads a flight and asks the next ----------

  // Node nd is cold for k and has the given flights.
  ghost predicate Cold(nd: Node, ring: Ring.Ring, k: Key, loads: Flight.Group<Result>) {
    nd.caching && k !in nd.main && k !in nd.hot && nd.ring == ring && nd.loads == loads
  }

  function LedBy(led: map<Addr, Tid>, n: Addr, k: Key): (g: Flight.Group<Result>) {
    if n in led then Flight.Lead(Flight.Empty(), k, led[n], Fail(LeaderPanicked)) else Flight.Empty()
  }

  // Task u waits for the answer of a request that has not ended.
  ghost predicate Asks(s: State, u: Tid)
    requires u in s.tasks
  {
    var task := s.tasks[u];
    task.op.Get? && task.pc.AwaitPeer? && task.pc.child in s.tasks && !s.tasks[task.pc.child].pc.Ended?
  }

  // Task u has joined a flight that has no result yet.
  ghost predicate Joined(s: State, u: Tid)
    requires u in s.tasks
  {
    var task := s.tasks[u];
    && task.op.Get? && task.pc.Wait? && task.node in s.nodes && task.pc.call in s.nodes[task.node].loads.calls
    && !s.nodes[task.node].loads.calls[task.pc.call].done
  }

  ghost predicate NodesReady(s: State, rings: Rings, k: Key, led: map<Addr, Tid>) {
    && s.nodes.Keys == rings.Keys
    && forall n :: n in rings ==> Cold(s.nodes[n], rings[n], k, LedBy(led, n, k))
  }

  // Task t is about to begin; all the others wait for answers. The nodes in led have a flight for k.
  ghost predicate Trek(s: State, rings: Rings, k: Key, led: map<Addr, Tid>, t: Tid) {
    && NodesReady(s, rings, k, led)
    && t in s.tasks && s.tasks[t].node in rings && s.tasks[t] == Task(s.tasks[t].node, Get(k, false), Begin, FRESH)
    && WaitsButFor(s, t)
  }

  ghost predicate WaitsButFor(s: State, t: Tid) {
    && (forall u :: u in s.tasks ==> u <= t)
    && (forall u {:trigger Asks(s, u)} :: u in s.tasks && u != t ==> Asks(s, u))
  }

  // Every task waits for an answer or a flight.
  ghost predicate Jammed(s: State) {
    forall u {:trigger Asks(s, u)} {:trigger Joined(s, u)} :: u in s.tasks ==> Asks(s, u) || Joined(s, u)
  }

  lemma WaitingCannotRun(s: State, u: Tid, inp: Input)
    requires u in s.tasks && (Asks(s, u) || Joined(s, u)) && Faultless(inp)
    ensures !Enabled(s, Run(u, inp))
  {
  }

  lemma JammedIsDeadlocked(s: State, t: Tid)
    requires Jammed(s) && t in s.tasks
    ensures Deadlocked(s, t)
  {
    assert Asks(s, t) || Joined(s, t);
    forall path, inp | Chain(s, path) && Faultless(inp)
      ensures !Unblocks(s, t, path, inp)
    {
      var last := path[|path| - 1];
      assert Asks(s, last) || Joined(s, last);
      WaitingCannotRun(s, last, inp);
    }
  }

  // The node has no flight yet: the task leads one and asks the next node.
  lemma Forwards(s: State, rings: Rings, k: Key, led: map<Addr, Tid>, t: Tid, p: Addr) returns (s': State)
    requires Trek(s, rings, k, led, t) && p in rings && s.tasks[t].node !in led
    requires Hop(rings, k, s.tasks[t].node) == Some(p)
    ensures Reaches(s, s') && Trek(s', rings, k, led[s.tasks[t].node := t], t + 1)
    ensures s'.tasks[t + 1].node == p
  {
    var n := s.tasks[t].node;
    assert Cold(s.nodes[n], rings[n], k, LedBy(led, n, k));
    var nd, task;
    nd, task, s' := LeadsAndAsks(s, t, k, p);
    NodesOn(s, s', rings, k, led, t, nd);
    TasksOn(s, s', k, t, p, task);
  }

  lemma LeadsAndAsks(s: State, t: Tid, k: Key, p: Addr) returns (nd: Node, task: Task, s': State)
    requires t in s.tasks && t + 1 !in s.tasks && s.tasks[t].node in s.nodes && p in s.nodes
    requires s.tasks[t] == Task(s.tasks[t].node, Get(k, false), Begin, FRESH)
    requires Cold(s.nodes[s.tasks[t].node], s.nodes[s.tasks[t].node].ring, k, Flight.Empty())
    requires Ring.Pick(s.nodes[s.tasks[t].node].ring, k) == Some(Ring.Peer(p, false))
    ensures Reaches(s, s') && s'.nodes == s.nodes[s.tasks[t].node := nd] && Same(s.nodes[s.tasks[t].node], nd)
    ensures nd.loads == Flight.Lead(Flight.Empty(), k, t, Fail(LeaderPanicked))
    ensures task.op == Get(k, false) && task.pc == AwaitPeer(p, t + 1)
    ensures s'.tasks == s.tasks[t := task][t + 1 := Task(p, Get(k, false), Begin, FRESH)]
  {
    From(s, t);
    var s1;
    nd, task, s1 := PicksPeer(s, t, s.nodes[s.tasks[t].node], s.tasks[t], s, p);
    s' := Sends(s1, t, Send(t + 1), t + 1);
    Via(s, s1, s');
    task := s'.tasks[t];
  }

  lemma NodesOn(s: State, s': State, rings: Rings, k: Key, led: map<Addr, Tid>, t: Tid, nd: Node)
    requires NodesReady(s, rings, k, led) && t in s.tasks && s.tasks[t].node in rings && s.tasks[t].node !in led
    requires s'.nodes == s.nodes[s.tasks[t].node := nd] && Same(s.nodes[s.tasks[t].node], nd)
    requires nd.loads == Flight.Lead(Flight.Empty(), k, t, Fail(LeaderPanicked))
    ensures NodesReady(s', rings, k, led[s.tasks[t].node := t])
  {
    forall n | n in rings
      ensures Cold(s'.nodes[n], rings[n], k, LedBy(led[s.tasks[t].node := t], n, k))
    {
      assert Cold(s.nodes[n], rings[n], k, LedBy(led, n, k));
    }
  }

  lemma TasksOn(s: State, s': State, k: Key, t: Tid, p: Addr, task: Task)
    requires t in s.tasks && WaitsButFor(s, t)
    requires s'.tasks == s.tasks[t := task][t + 1 := Task(p, Get(k, false), Begin, FRESH)]
    requires task.op == Get(k, false) && task.pc == AwaitPeer(p, t + 1)
    ensures WaitsButFor(s', t + 1)
  {
    forall u | u in s'.tasks && u != t + 1
      ensures Asks(s', u)
    {
      if u != t {
        assert Asks(s, u);
      }
    }
  }

  // The node has one: the task joins it.
  lemma Closes(s: State, rings: Rings, k: Key, led: map<Addr, Tid>, t: Tid) returns (s': State)
    requires Trek(s, rings, k, led, t) && s.tasks[t].node in led
    ensures Reaches(s, s') && Jammed(s') && t in s'.tasks && Quiet.IsGet(s'.tasks[t].op, k)
  {
    var n := s.tasks[t].node;
    From(s, t);
    assert Cold(s.nodes[n], rings[n], k, LedBy(led, n, k));
    var nd, task;
    nd, task, s' := ComesToTheDoor(s, t, s.nodes[n], s.tasks[t], s);
    nd, task, s' := Tick(s, t, nd, task, s', Go);
    assert Joined(s', t);
    forall u | u in s'.tasks && u != t
      ensures Asks(s', u)
    {
      assert Asks(s, u);
    }
  }

  lemma {:induction false} CycleHops(rings: Rings, k: Key, n: Addr, j: nat)
    requires j > 0 && Follow(rings, k, n, j).Some?
    ensures Hop(rings, k, n).Some?
  {
    if j > 1 {
      CycleHops(rings, k, n, j - 1);
    } else {
      assert Follow(rings, k, n, 0) == Some(n);
    }
  }

  lemma NextOnCycle(rings: Rings, k: Key, n: Addr) returns (p: Addr)
    requires OnCycle(rings, k, n) && Closed(rings, k)
    ensures Hop(rings, k, n) == Some(p) && OnCycle(rings, k, p)
  {
    var j :| j > 0 && Follow(rings, k, n, j) == Some(n);
    CycleHops(rings, k, n, j);
    p := Hop(rings, k, n).value;
    FirstHop(rings, k, n, p, j);
    assert Follow(rings, k, n, j + 1) == Some(p);
  }

  lemma FewerLeft(members: set<Addr>, led: map<Addr, Tid>, n: Addr, t: Tid)
    requires n in members && n !in led
    ensures |members - led[n := t].Keys| < |members - led.Keys|
  {
    assert n in members - led.Keys && n !in members - led[n := t].Keys;
    Smaller(members - led[n := t].Keys, members - led.Keys);
  }

  lemma {:induction false} Jams(s: State, rings: Rings, k: Key, led: map<Addr, Tid>, t: Tid)
    returns (s': State, u: Tid)
    requires Trek(s, rings, k, led, t) && Closed(rings, k) && OnCycle(rings, k, s.tasks[t].node)
    ensures Reaches(s, s') && Jammed(s') && u in s'.tasks && Quiet.IsGet(s'.tasks[u].op, k)
    decreases |rings.Keys - led.Keys|
  {
    var n := s.tasks[t].node;
    if n in led {
      s' := Closes(s, rings, k, led, t);
      u := t;
    } else {
      var p := NextOnCycle(rings, k, n);
      var s1 := Forwards(s, rings, k, led, t, p);
      FewerLeft(rings.Keys, led, n, t);
      s', u := Jams(s1, rings, k, led[n := t], t + 1);
      Via(s, s1, s');
    }
  }

  lemma CycleDeadlocks(rings: Rings, k: Key, n: Addr) returns (s': State, u: Tid)
    requires Closed(rings, k) && OnCycle(rings, k, n)
    ensures Reaches(Scenarios.Cluster(rings), s') && Jammed(s')
    ensures u in s'.tasks && Quiet.IsGet(s'.tasks[u].op, k) && Deadlocked(s', u)
  {
    var s0 := Scenarios.Cluster(rings);
    var s1 := Called(s0, 0, n, Get(k, false));
    s', u := Jams(s1, rings, k, map[], 0);
    Via(s0, s1, s');
    JammedIsDeadlocked(s', u);
  }

  // ---------- the law ----------

  // A run with these peer lists, never replaced, that ends with a deadlocked Get of k.
  ghost predicate DeadlockRun(ss: seq<State>, steps: seq<Step>, rings: Rings, k: Key, t: Tid) {
    && IsRun(ss, steps) && Init(ss[0]) && Uses(ss[0], rings)
    && (forall j :: 0 <= j < |steps| ==> !steps[j].SetPeers?)
    && t in ss[|steps|].tasks && Quiet.IsGet(ss[|steps|].tasks[t].op, k) && Deadlocked(ss[|steps|], t)
  }

  lemma DeadlockExactly(rings: Rings, k: Key)
    requires Closed(rings, k)
    ensures (exists ss, steps, t :: DeadlockRun(ss, steps, rings, k, t)) <==> (exists n :: OnCycle(rings, k, n))
  {
    if n :| OnCycle(rings, k, n) {
      var s', t := CycleDeadlocks(rings, k, n);
      Scenarios.ClusterStarts(rings);
      var ss, steps := AsRun(Scenarios.Cluster(rings), s');
      assert DeadlockRun(ss, steps, rings, k, t);
    } else {
      forall ss, steps, t | IsRun(ss, steps)
        ensures !DeadlockRun(ss, steps, rings, k, t)
      {
        if DeadlockRun(ss, steps, rings, k, t) {
          AcyclicNeverDeadlocks(ss, steps, rings, k, |steps|, t);
        }
      }
    }
  }

  // ---------- a shared point is enough ----------

  // A ring that SetPeers may build on node a from a and b, in which the point that b has at the hash
  // of k comes first among its equals.
  lemma PrefersOther(hashFn: Ring.HashFn, digest: string -> string, n: nat, a: Addr, b: Addr, members: set<Addr>,
                     j: nat, k: Key)
    returns (r: Ring.Ring)
    requires a != b && members == {a, b}
    requires j < n && Ring.ReplicaHash(hashFn, digest, j, b) == Ring.Signed(hashFn(k))
    ensures Hops.ProperRing(a, r, digest, n, hashFn, members) && Ring.Pick(r, k) == Some(Ring.Peer(b, false))
  {
    var l := [Ring.Peer(a, true), Ring.Peer(b, false)];
    PairList(a, b, members);
    var points := FirstAtHash(hashFn, digest, n, l, l[1], j, k);
    r := Ring.Ring(hashFn, points, map[a := l[0], b := l[1]]);
    ListedIsProper(a, r, digest, n, hashFn, members, l);
  }

  lemma FirstAtHash(hashFn: Ring.HashFn, digest: string -> string, n: nat, l: seq<Ring.Peer>, peer: Ring.Peer,
                    j: nat, k: Key)
    returns (points: seq<Ring.Point>)
    requires peer in l && j < n && Ring.ReplicaHash(hashFn, digest, j, peer.address) == Ring.Signed(hashFn(k))
    ensures Ring.Sorted(points) && multiset(points) == Ring.PointsOf(hashFn, digest, n, l)
    ensures points != [] && Ring.Landing(points, Ring.Signed(hashFn(k))).peer == peer
  {
    var p := Ring.Point(Ring.Signed(hashFn(k)), peer);
    Ring.PointsMembership(hashFn, digest, n, l, p);
    points := Ties.PutFirst(Ring.PointsOf(hashFn, digest, n, l), p);
  }

  lemma PairList(a: Addr, b: Addr, members: set<Addr>)
    requires a != b && members == {a, b}
    ensures var l := [Ring.Peer(a, true), Ring.Peer(b, false)];
      Ring.Addresses(l) == members && Ring.ListFor(l, a, members)
  {
    var l := [Ring.Peer(a, true), Ring.Peer(b, false)];
    assert l[0] in l && l[1] in l;
  }

  lemma ListedIsProper(a: Addr, r: Ring.Ring, digest: string -> string, n: nat, hashFn: Ring.HashFn,
                       members: set<Addr>, l: seq<Ring.Peer>)
    requires r.hashFn == hashFn && a in members && Ring.Addresses(l) == members && Ring.ListFor(l, a, members)
    requires Ring.Builds(r, digest, n, l)
    ensures Hops.ProperRing(a, r, digest, n, hashFn, members)
  {
  }

  lemma PickEachOther(ra: Ring.Ring, rb: Ring.Ring, a: Addr, b: Addr, k: Key)
    requires a != b && Ring.Pick(ra, k) == Some(Ring.Peer(b, false)) && Ring.Pick(rb, k) == Some(Ring.Peer(a, false))
    ensures exists ss, steps, t :: DeadlockRun(ss, steps, map[a := ra, b := rb], k, t)
  {
    var rings := map[a := ra, b := rb];
    assert Hop(rings, k, a) == Some(b) && Hop(rings, k, b) == Some(a);
    ThereAndBack(rings, k, a, b);
    DeadlockExactly(rings, k);
  }

  lemma ThereAndBack(rings: Rings, k: Key, a: Addr, b: Addr)
    requires a in rings && Hop(rings, k, a) == Some(b) && Hop(rings, k, b) == Some(a)
    ensures OnCycle(rings, k, a)
  {
    FirstHop(rings, k, a, b, 1);
    FirstHop(rings, k, b, a, 0);
    assert Follow(rings, k, a, 2) == Some(a);
  }

  // Two nodes that were given the same two addresses, each with its own marked as self, pick each
  // other for a key whose hash is a point they share, if their sorts break the tie differently. So
  // some run deadlocks a Get: the rings of distinct points that rule deadlock out are needed.
  lemma SharedPointCanDeadlock(hashFn: Ring.HashFn, digest: string -> string, n: nat, a: Addr, b: Addr,
                               i: nat, j: nat, k: Key)
    returns (rings: Rings)
    requires a != b && i < n && j < n && Ring.ReplicaHash(hashFn, digest, i, a) == Ring.Signed(hashFn(k))
    requires Ring.ReplicaHash(hashFn, digest, j, b) == Ring.Signed(hashFn(k))
    ensures rings.Keys == {a, b}
    ensures Hops.ProperRing(a, rings[a], digest, n, hashFn, rings.Keys)
    ensures Hops.ProperRing(b, rings[b], digest, n, hashFn, rings.Keys)
    ensures exists ss, steps, t :: DeadlockRun(ss, steps, rings, k, t)
  {
    var members := {a, b};
    var ra := PrefersOther(hashFn, digest, n, a, b, members, j, k);
    var rb := PrefersOther(hashFn, digest, n, b, a, members, i, k);
    PickEachOther(ra, rb, a, b, k);
    rings := map[a := ra, b := rb];
    assert rings.Keys == members && rings[a] == ra && rings[b] == rb;
  }
}
