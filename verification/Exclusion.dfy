// LocalRemove, RemoteSet and Set take loadGroup.Lock to keep older loads from writing afterwards.
// The lock holds only the map's mutex, so it does that exactly when no flight for the key that
// may still populate a cache is in the map.
module Exclusion {
  import opened Views
  import opened Wire
  import opened Protocol
  import Flights
  import Quiet
  import Runs

  // The task is about to add k to one of the caches of its node.
  predicate Populating(pc: Pc) {
    pc.PopHot? || pc.PopMain?
  }

  // Its flight has not populated a cache yet and may still do so.
  predicate MayPopulate(pc: Pc) {
    match pc
    case LookMain(again) => again
    case LookHot(again) => again
    case CountDedup => true
    case Pick => true
    case CallPeer(_) => true
    case AwaitPeer(_, _) => true
    case PopHot(_) => true
    case PeerFailed(e) => !Final(e)
    case RunGetter => true
    case CountLocal(r) => r.Value?
    case PopMain(_) => true
    case _ => false
  }

  ghost predicate LeadsGet(s: State, t: Tid, n: Addr, k: Key) {
    t in s.tasks && s.tasks[t].node == n && Quiet.IsGet(s.tasks[t].op, k) && Flights.Leads(s.tasks[t].op, s.tasks[t].pc)
  }

  // ---------- the guarded form ----------

  // A task that comes to lead does so by passing Enter while the lock is free.
  lemma ElectionStep(s: State, step: Step, t: Tid, n: Addr, k: Key)
    requires Flights.Inv(s) && Enabled(s, step)
    requires !LeadsGet(s, t, n, k) && LeadsGet(Apply(s, step), t, n, k)
    ensures step == Run(t, Go) && t in s.tasks && s.tasks[t].pc.Enter? && s.tasks[t].node == n && n in s.nodes
    ensures s.nodes[n].loads.mu == None
  {
    if step.Run? {
      var u := step.t;
      var m := Next(s.nodes[s.tasks[u].node], u, s.tasks[u], step.input);
      Flights.RunIsFlightMove(s, u, step.input, m);
      assert u == t;
    }
  }

  lemma {:induction false} Election(ss: seq<State>, steps: seq<Step>, i: nat, j: nat, t: Tid, n: Addr, k: Key)
    returns (e: nat)
    requires IsRun(ss, steps) && i <= j < |ss| && Flights.Inv(ss[i])
    requires !LeadsGet(ss[i], t, n, k) && LeadsGet(ss[j], t, n, k)
    ensures i <= e < j && steps[e] == Run(t, Go) && t in ss[e].tasks && ss[e].tasks[t].pc.Enter?
    ensures n in ss[e].nodes && ss[e].nodes[n].loads.mu == None
    ensures LeadsGet(ss[e + 1], t, n, k)
    decreases j - i
  {
    assert Enabled(ss[i], steps[i]) && ss[i + 1] == Apply(ss[i], steps[i]);
    if LeadsGet(ss[i + 1], t, n, k) {
      ElectionStep(ss[i], steps[i], t, n, k);
      e := i;
    } else {
      Flights.StepKeepsInv(ss[i], steps[i]);
      e := Election(ss, steps, i + 1, j, t, n, k);
    }
  }

  lemma LeaderInMap(s: State, t: Tid, n: Addr, k: Key)
    requires Flights.Inv(s) && n in s.nodes
    ensures LeadsGet(s, t, n, k) ==> k in s.nodes[n].loads.m && s.nodes[n].loads.m[k] == t
  {
    if t in s.tasks {
      assert Flights.TaskOk(s, t);
    }
  }

  lemma PopulatorLeads(s: State, t: Tid, n: Addr, k: Key)
    requires Flights.Inv(s) && t in s.tasks && s.tasks[t].node == n && Quiet.IsGet(s.tasks[t].op, k)
    requires Populating(s.tasks[t].pc)
    ensures LeadsGet(s, t, n, k)
  {
    assert Flights.TaskOk(s, t);
  }

  // If no flight for k is in the map of node n when a critical section begins there, then
  // every task that later adds k to a cache of n was elected after the section began, at a
  // moment when its task no longer held the lock: no older load writes k afterwards.
  lemma GuardedExclusion(ss: seq<State>, steps: seq<Step>, i: nat, j: nat, w: Tid, t: Tid, n: Addr, k: Key)
    returns (e: nat)
    requires IsRun(ss, steps) && Init(ss[0]) && i < j < |steps|
    requires w in ss[i].tasks && ss[i].tasks[w].pc.Acquire? && ss[i].tasks[w].node == n && steps[i] == Run(w, Go)
    requires n in ss[i].nodes && k !in ss[i].nodes[n].loads.m
    requires t in ss[j].tasks && ss[j].tasks[t].node == n && Quiet.IsGet(ss[j].tasks[t].op, k)
    requires steps[j] == Run(t, Go) && Populating(ss[j].tasks[t].pc)
    ensures i < e < j && steps[e] == Run(t, Go) && t in ss[e].tasks && ss[e].tasks[t].pc.Enter?
    ensures LeadsGet(ss[e + 1], t, n, k)
    ensures w in ss[e].tasks ==> !Flights.HoldsLock(ss[e].tasks[w].pc) || ss[e].tasks[w].node != n
  {
    Flights.InitInv(ss[0]);
    Flights.RunKeepsInv(ss, steps, i);
    Flights.RunKeepsInv(ss, steps, j);
    LeaderInMap(ss[i], t, n, k);
    PopulatorLeads(ss[j], t, n, k);
    e := Election(ss, steps, i, j, t, n, k);
    Flights.RunKeepsInv(ss, steps, e);
    if w in ss[e].tasks {
      assert Flights.TaskOk(ss[e], w);
    }
  }

  // ---------- exactly when an older flight can still write ----------

  // The next step of task t adds k to a cache of node n.
  ghost predicate Adds(s: State, t: Tid, n: Addr, k: Key) {
    && t in s.tasks && n in s.nodes && Populating(s.tasks[t].pc) && Enabled(s, Run(t, Go))
    && var nd, nd', v := s.nodes[n], Apply(s, Run(t, Go)).nodes[n], s.tasks[t].pc.view;
       && nd.caching
       && if s.tasks[t].pc.PopMain? then nd'.main == nd.main[k := v] else nd'.hot == nd.hot[k := v]
  }

  // A run from s in which task t, already leading, adds k to a cache of its node.
  ghost predicate WritesLater(s: State, steps: seq<Step>, s': State, t: Tid, n: Addr, k: Key) {
    Runs.Leads(s, steps, s') && Adds(s', t, n, k)
  }

  // A leader past populating stays past it.
  lemma PastStays(s: State, step: Step, t: Tid)
    requires Flights.Inv(s) && Enabled(s, step) && t in s.tasks && s.tasks[t].op.Get?
    requires Past(s.tasks[t].pc)
    ensures t in Apply(s, step).tasks && Apply(s, step).tasks[t].op.Get? && Past(Apply(s, step).tasks[t].pc)
  {
    if step.Run? {
      assert Flights.TaskOk(s, t);
      Flights.SpawnsFresh(s, step.t, step.input);
      if step.t == t {
        NextPast(s.nodes[s.tasks[t].node], t, s.tasks[t], step.input);
      }
    }
  }

  predicate Past(pc: Pc) {
    match pc
    case CountHit(_, _) => true
    case CountPeer(_) => true
    case PeerFailed(e) => Final(e)
    case CountLocal(r) => !r.Value?
    case Store(_) => true
    case Signal(_) => true
    case Delete(_) => true
    case Ended(_) => true
    case _ => false
  }

  lemma NextPast(nd: Node, t: Tid, task: Task, inp: Input)
    requires task.op.Get? && Past(task.pc) && Next(nd, t, task, inp).Move?
    ensures Next(nd, t, task, inp).task.op == task.op && Past(Next(nd, t, task, inp).task.pc)
  {
  }

  lemma {:induction false} PastNeverWrites(s: State, steps: seq<Step>, s': State, t: Tid, n: Addr, k: Key)
    requires Flights.Inv(s) && t in s.tasks && s.tasks[t].op.Get? && Past(s.tasks[t].pc)
    requires Runs.Leads(s, steps, s')
    ensures !WritesLater(s, steps, s', t, n, k)
    decreases |steps|
  {
    if steps != [] {
      PastStays(s, steps[0], t);
      Flights.StepKeepsInv(s, steps[0]);
      PastNeverWrites(Apply(s, steps[0]), steps[1..], s', t, n, k);
    }
  }

  // How many actions of its own a flight is away from populating, at most.
  function Distance(pc: Pc): (d: nat) {
    match pc
    case LookMain(_) => 8
    case LookHot(_) => 7
    case CountDedup => 6
    case Pick => 5
    case CallPeer(_) => 4
    case AwaitPeer(_, _) => 4
    case PeerFailed(_) => 3
    case RunGetter => 2
    case CountLocal(_) => 1
    case _ => 0
  }

  // The next lookup of the task would find a copy of k.
  predicate WouldHit(nd: Node, pc: Pc, k: Key) {
    (pc.LookMain? && k in nd.main) || (pc.LookHot? && k in nd.hot)
  }

  // The environment can let such a flight come nearer: its next lookup misses, its peer does not
  // answer, its getter succeeds.
  lemma Nearer(nd: Node, t: Tid, task: Task, v: View) returns (inp: Input)
    requires task.op.Get? && MayPopulate(task.pc) && !Populating(task.pc) && !WouldHit(nd, task.pc, task.op.key)
    ensures var m := Next(nd, t, task, inp);
      m.Move? && m.spawn.None? && !inp.Answer? && m.task.op == task.op && m.task.node == task.node
      && MayPopulate(m.task.pc) && Distance(m.task.pc) < Distance(task.pc) && m.node.caching == nd.caching
  {
    match task.pc
    case LookMain(_) => inp := At(Time(0, 0));
    case LookHot(_) => inp := At(Time(0, 0));
    case CallPeer(_) => inp := Lose(Opaque);
    case AwaitPeer(_, _) => inp := Lose(Opaque);
    case PeerFailed(_) => inp := Ctx(true);
    case RunGetter => inp := Load(Loaded(v));
    case _ => inp := Go;
  }

  // If the next lookup of the task would hit, its cache drops the copy first.
  lemma Cleared(s: State, n: Addr, k: Key, pc: Pc) returns (steps: seq<Step>, s': State)
    requires Flights.Inv(s) && n in s.nodes
    ensures Runs.Leads(s, steps, s') && Flights.Inv(s') && (!WouldHit(s.nodes[n], pc, k) ==> steps == [])
    ensures s'.tasks == s.tasks && n in s'.nodes && !WouldHit(s'.nodes[n], pc, k)
    ensures s'.nodes[n].caching == s.nodes[n].caching
  {
    if WouldHit(s.nodes[n], pc, k) {
      var step := Evict(n, k, pc.LookHot?);
      steps, s' := [step], Apply(s, step);
      Flights.StepKeepsInv(s, step);
      Runs.One(s, step);
    } else {
      steps, s' := [], s;
    }
  }

  lemma {:induction false} CanWrite(s: State, t: Tid, n: Addr, k: Key, v: View) returns (steps: seq<Step>, s': State)
    requires Flights.Inv(s) && t in s.tasks && s.tasks[t].node == n && Quiet.IsGet(s.tasks[t].op, k) && n in s.nodes
    requires MayPopulate(s.tasks[t].pc) && s.nodes[n].caching
    ensures WritesLater(s, steps, s', t, n, k)
    decreases Distance(s.tasks[t].pc), if Populating(s.tasks[t].pc) then 0 else 1
  {
    if Populating(s.tasks[t].pc) {
      steps, s' := [], s;
    } else {
      var drop, s1 := Cleared(s, n, k, s.tasks[t].pc);
      var inp := Nearer(s1.nodes[n], t, s1.tasks[t], v);
      var step := Run(t, inp);
      assert Enabled(s1, step);
      var s2 := Apply(s1, step);
      Flights.StepKeepsInv(s1, step);
      Runs.One(s1, step);
      var rest;
      rest, s' := CanWrite(s2, t, n, k, v);
      Runs.Join(s1, [step], s2, rest, s');
      Runs.Join(s, drop, s1, [step] + rest, s');
      steps := drop + ([step] + rest);
    }
  }

  // For a flight that is in the map at some moment, in particular while a removal or a remote set
  // holds the lock: it can still add the key to a cache afterwards if and only if the node caches
  // and the flight has not yet populated a cache and has not failed.
  lemma OlderFlightWrites(s: State, t: Tid, n: Addr, k: Key)
    requires Flights.Inv(s) && n in s.nodes && LeadsGet(s, t, n, k)
    ensures (exists steps, s' :: WritesLater(s, steps, s', t, n, k))
       <==> s.nodes[n].caching && MayPopulate(s.tasks[t].pc)
  {
    if s.nodes[n].caching && MayPopulate(s.tasks[t].pc) {
      var steps, s' := CanWrite(s, t, n, k, View([], None));
    } else {
      forall steps, s' | Runs.Leads(s, steps, s')
        ensures !WritesLater(s, steps, s', t, n, k)
      {
        if s.nodes[n].caching {
          PastNeverWrites(s, steps, s', t, n, k);
        } else {
          Runs.CachingKept(s, steps, s', n);
        }
      }
    }
  }

  // The lock freezes the map: between taking and releasing it, no flight for any key begins or
  // is deleted on the node, so the flights it fails to exclude are those present when it was taken.
  lemma LockFreezesMap(s: State, step: Step, n: Addr)
    requires Flights.Inv(s) && Enabled(s, step) && n in s.nodes && s.nodes[n].loads.mu.Some?
    ensures n in Apply(s, step).nodes && Apply(s, step).nodes[n].loads.m == s.nodes[n].loads.m
  {
    if step.Run? {
      var m := Next(s.nodes[s.tasks[step.t].node], step.t, s.tasks[step.t], step.input);
      Flights.RunIsFlightMove(s, step.t, step.input, m);
    }
  }
}
