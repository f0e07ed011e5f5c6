// Concurrent misses share one load: when the peers agree on the owner of k and nothing sets,
// removes, evicts or expires the owner's copy, any number of Gets on any nodes, interleaved in
// any way, run the getter for k at most once.
module OneLoad {
  import opened Views
  import opened Wire
  import opened Protocol
  import Flights
  import Requests
  import Quiet
  import Ring
  import Transparency

  // Node n routes k to the owner.
  ghost predicate RoutesTo(n: Addr, ring: Ring.Ring, k: Key, o: Addr) {
    if n == o then Ring.IsLocal(ring, k) else Ring.Pick(ring, k) == Some(Ring.Peer(o, false))
  }

  // What the hypothesis excludes, step by step; everything else may happen, and anything at all
  // may happen to other keys.
  ghost predicate Allowed(s: State, step: Step, k: Key, o: Addr) {
    match step
    case Call(_, _, op) => Quiet.Spares(op, k)                       // no Set, Remove, RemoveKeys of k
    case Evict(n, key, hot) => !(n == o && key == k && !hot)         // the owner does not evict k
    case SetPeers(n, ring) => RoutesTo(n, ring, k, o)                // peer lists keep agreeing on k
    case Run(t, inp) =>
      t in s.tasks && Quiet.IsGet(s.tasks[t].op, k) ==>
        && !inp.Lose?                                                // peers answer
        && (inp.Load? ==> inp.out.Loaded?)                           // the getter succeeds
        && (inp.At? && s.tasks[t].node == o && o in s.nodes ==> Unexpired(s.nodes[o], k, inp.now))
  }

  // The copy in main, if there is one, has not expired.
  predicate Unexpired(nd: Node, k: Key, now: Time) {
    k in nd.main ==> !Expired(nd.main[k], now)
  }

  ghost predicate Start(s: State, k: Key, o: Addr) {
    && Init(s)
    && o in s.nodes && s.nodes[o].caching
    && forall n :: n in s.nodes ==> RoutesTo(n, s.nodes[n].ring, k, o)
  }

  ghost predicate HasLoad(log: seq<LoadRecord>, k: Key) {
    exists i :: 0 <= i < |log| && log[i].key == k
  }

  ghost predicate AtMostOneLoad(log: seq<LoadRecord>, k: Key) {
    forall i, j :: 0 <= i < |log| && 0 <= j < |log| && log[i].key == k && log[j].key == k ==> i == j
  }

  // ---------- where a Get of k can be ----------

  predicate Good(o: Outcome) {
    o.Return? && o.result.Value?
  }

  predicate Smooth(task: Task, o: Addr) {
    match task.pc
    case CallPeer(p) => task.node != o && p == o
    case AwaitPeer(p, _) => task.node != o && p == o
    case PopHot(_) => task.node != o
    case CountPeer(_) => task.node != o
    case PeerFailed(_) => false
    case RunGetter => task.node == o
    case CountLocal(r) => task.node == o && r.Value?
    case PopMain(_) => task.node == o
    case Store(out) => Good(out)
    case Signal(out) => Good(out)
    case Delete(out) => Good(out)
    case Ended(out) => Good(out) || (task.op.Get? && task.op.nilDest && out == Return(Fail(NilSink)))
    case _ => true
  }

  // The flight has missed the owner's main cache and not yet called the getter.
  predicate Missed(pc: Pc) {
    (pc.LookHot? && pc.again) || pc.CountDedup? || pc.Pick? || pc.RunGetter?
  }

  // The getter has returned and the value is not yet in the main cache.
  predicate Unsaved(pc: Pc) {
    pc.CountLocal? || pc.PopMain?
  }

  // ---------- one move of a Get of k ----------

  ghost predicate GetMove(nd: Node, task: Task, m: Move, k: Key, o: Addr)
    requires m.Move?
  {
    && Smooth(m.task, o)
    && (task.node == o ==>
          // the owner's copy only ever appears, and it appears when the loaded value is saved
          && (k in nd.main || task.pc.PopMain? <==> k in m.node.main)
          && (Missed(m.task.pc) ==> k !in nd.main && (Missed(task.pc) || (task.pc.LookMain? && task.pc.again)))
          && (Unsaved(task.pc) ==> Unsaved(m.task.pc) || k in m.node.main))
    && (m.load.Some? ==> task.node == o && task.pc.RunGetter? && Unsaved(m.task.pc))
    && (Unsaved(m.task.pc) ==> Unsaved(task.pc) || m.load.Some?)
  }

  // What the hypotheses give for the next action of a Get of k.
  ghost predicate GoodInput(nd: Node, task: Task, inp: Input, k: Key, o: Addr) {
    && RoutesTo(task.node, nd.ring, k, o) && (task.node == o ==> nd.caching)
    && !inp.Lose? && (inp.Load? ==> inp.out.Loaded?) && (inp.Answer? ==> inp.result.Value?)
    && (inp.At? && task.node == o ==> Unexpired(nd, k, inp.now))
    && (task.pc.Wait? && task.pc.call in nd.loads.calls && nd.loads.calls[task.pc.call].done ==>
          nd.loads.calls[task.pc.call].result.Value?)
    && (task.node == o && Missed(task.pc) ==> k !in nd.main)
  }

  lemma GetOfKMoves(nd: Node, t: Tid, task: Task, inp: Input, m: Move, k: Key, o: Addr)
    requires m == Next(nd, t, task, inp) && m.Move?
    requires Quiet.IsGet(task.op, k) && Flights.Shape(task.op, task.pc) && Smooth(task, o)
    requires GoodInput(nd, task, inp, k, o)
    ensures GetMove(nd, task, m, k, o)
  {
    if InDo(task.pc) {
    } else if task.pc.Begin? || task.pc.LookMain? || task.pc.LookHot? || task.pc.CountHit? {
      GetOfKLooks(nd, task, inp, m, k, o);
    } else {
      GetOfKLoads(nd, task, inp, m, k, o);
    }
  }

  lemma GetOfKLooks(nd: Node, task: Task, inp: Input, m: Move, k: Key, o: Addr)
    requires task.op.Get? && Fits(task.pc, inp) && m == NextGet(nd, task, inp) && m.Move?
    requires task.pc.Begin? || task.pc.LookMain? || task.pc.LookHot? || task.pc.CountHit?
    requires task.op.key == k && Smooth(task, o) && GoodInput(nd, task, inp, k, o)
    ensures GetMove(nd, task, m, k, o)
  {
  }

  lemma GetOfKLoads(nd: Node, task: Task, inp: Input, m: Move, k: Key, o: Addr)
    requires task.op.Get? && Fits(task.pc, inp) && m == NextGet(nd, task, inp) && m.Move?
    requires !task.pc.Begin? && !task.pc.LookMain? && !task.pc.LookHot? && !task.pc.CountHit? && !InDo(task.pc)
    requires task.op.key == k && Smooth(task, o) && GoodInput(nd, task, inp, k, o)
    ensures GetMove(nd, task, m, k, o)
  {
  }

  // ---------- the invariant ----------

  ghost predicate TaskInv(s: State, t: Tid, k: Key, o: Addr)
    requires t in s.tasks && o in s.nodes
  {
    var task := s.tasks[t];
    && Quiet.SparesTask(task, k)
    && (Quiet.IsGet(task.op, k) ==>
          && Smooth(task, o)
          && (task.node == o && Missed(task.pc) ==> !HasLoad(s.log, k) && k !in s.nodes[o].main))
  }

  // The value of the one load is saved, or its flight is about to save it.
  ghost predicate LoadKept(s: State, k: Key, o: Addr)
    requires o in s.nodes
  {
    HasLoad(s.log, k) ==>
      || k in s.nodes[o].main
      || (k in s.nodes[o].loads.m && s.nodes[o].loads.m[k] in s.tasks && Unsaved(s.tasks[s.nodes[o].loads.m[k]].pc))
  }

  ghost predicate Inv(s: State, k: Key, o: Addr) {
    && o in s.nodes && s.nodes[o].caching
    && (forall n {:trigger s.nodes[n]} :: n in s.nodes ==> RoutesTo(n, s.nodes[n].ring, k, o))
    && (forall t {:trigger TaskInv(s, t, k, o)} :: t in s.tasks ==> TaskInv(s, t, k, o))
    && AtMostOneLoad(s.log, k)
    && LoadKept(s, k, o)
  }

  // ---------- preservation ----------

  lemma LoadAppended(log: seq<LoadRecord>, r: LoadRecord, k: Key)
    ensures HasLoad(log + [r], k) <==> HasLoad(log, k) || r.key == k
    ensures AtMostOneLoad(log, k) && (r.key == k ==> !HasLoad(log, k)) ==> AtMostOneLoad(log + [r], k)
  {
    var log' := log + [r];
    if HasLoad(log, k) {
      var i :| 0 <= i < |log| && log[i].key == k;
      assert log'[i].key == k;
    }
    if r.key == k {
      assert log'[|log|].key == k;
    }
  }

  // Only the leader of k at the owner can be between the miss and the save.
  lemma SoleLeader(s: State, t: Tid, u: Tid, k: Key)
    requires Flights.Inv(s) && t in s.tasks && u in s.tasks
    requires Quiet.IsGet(s.tasks[t].op, k) && Quiet.IsGet(s.tasks[u].op, k) && s.tasks[t].node == s.tasks[u].node
    requires Missed(s.tasks[t].pc) || Unsaved(s.tasks[t].pc) || (s.tasks[t].pc.LookMain? && s.tasks[t].pc.again)
    requires Missed(s.tasks[u].pc) || Unsaved(s.tasks[u].pc)
    ensures t == u
  {
    assert Flights.TaskOk(s, t) && Flights.TaskOk(s, u);
  }

  // The flight that is about to save the value is the one in the owner's map.
  lemma UnsavedInMap(s: State, l: Tid, k: Key, o: Addr)
    requires Flights.Inv(s) && l in s.tasks && o in s.nodes
    requires Quiet.IsGet(s.tasks[l].op, k) && s.tasks[l].node == o && Unsaved(s.tasks[l].pc)
    ensures k in s.nodes[o].loads.m && s.nodes[o].loads.m[k] == l
  {
    assert Flights.TaskOk(s, l);
  }

  // The task that the owner's map names for k is a Get of k at the owner.
  lemma LeaderIsGet(s: State, k: Key, o: Addr)
    requires Flights.Inv(s) && o in s.nodes && k in s.nodes[o].loads.m
    ensures var l := s.nodes[o].loads.m[k];
      l in s.tasks && Quiet.IsGet(s.tasks[l].op, k) && s.tasks[l].node == o
  {
    assert Flights.NodeOk(s, o);
  }

  lemma GetKeepsTask(s: State, s': State, t: Tid, m: Move, child: Option<Tid>, u: Tid, k: Key, o: Addr)
    requires Flights.Inv(s) && Inv(s, k, o) && t in s.tasks && u in s.tasks && s.tasks[t].node in s.nodes
    requires Flights.SpawnOk(s, m, child) && s' == Moved(s, t, m, child)
    requires Quiet.IsGet(s.tasks[t].op, k)
    requires Quiet.SparingMove(s.nodes[s.tasks[t].node], s.tasks[t], m, k)
    requires GetMove(s.nodes[s.tasks[t].node], s.tasks[t], m, k, o)
    ensures TaskInv(s', u, k, o)
  {
    assert TaskInv(s, t, k, o) && TaskInv(s, u, k, o);
    var task := s.tasks[t];
    if m.load.Some? {
      LoadAppended(s.log, LoadRecord(k, t, m.load.value), k);
    }
    if u != t && Quiet.IsGet(s.tasks[u].op, k) && s.tasks[u].node == o && Missed(s.tasks[u].pc) && task.node == o
       && (task.pc.PopMain? || m.load.Some?) {
      SoleLeader(s, t, u, k);
    }
    if u == t && task.node == o && Missed(m.task.pc) && !Missed(task.pc) && HasLoad(s.log, k) {
      LeaderIsGet(s, k, o);
      SoleLeader(s, t, s.nodes[o].loads.m[k], k);
    }
  }

  lemma GetKeepsLoad(s: State, s': State, t: Tid, m: Move, child: Option<Tid>, k: Key, o: Addr)
    requires Flights.Inv(s) && Flights.Inv(s') && Inv(s, k, o) && t in s.tasks && s.tasks[t].node in s.nodes
    requires Flights.SpawnOk(s, m, child) && s' == Moved(s, t, m, child)
    requires Quiet.IsGet(s.tasks[t].op, k) && m.task.op == s.tasks[t].op && m.task.node == s.tasks[t].node
    requires GetMove(s.nodes[s.tasks[t].node], s.tasks[t], m, k, o)
    ensures AtMostOneLoad(s'.log, k) && LoadKept(s', k, o)
  {
    assert TaskInv(s, t, k, o);
    var task := s.tasks[t];
    if m.load.Some? {
      LoadAppended(s.log, LoadRecord(k, t, m.load.value), k);
      UnsavedInMap(s', t, k, o);
    } else if HasLoad(s.log, k) && k !in s.nodes[o].main {
      LeaderIsGet(s, k, o);
      var l := s.nodes[o].loads.m[k];
      if l != t || Unsaved(m.task.pc) {
        UnsavedInMap(s', l, k, o);
      }
    }
  }

  lemma OtherKeepsTask(s: State, s': State, t: Tid, m: Move, child: Option<Tid>, u: Tid, k: Key, o: Addr)
    requires Inv(s, k, o) && t in s.tasks && u in s.tasks && s.tasks[t].node in s.nodes
    requires Flights.SpawnOk(s, m, child) && s' == Moved(s, t, m, child)
    requires !Quiet.IsGet(s.tasks[t].op, k)
    requires Quiet.SparingMove(s.nodes[s.tasks[t].node], s.tasks[t], m, k)
    ensures TaskInv(s', u, k, o)
  {
    assert TaskInv(s, t, k, o) && TaskInv(s, u, k, o);
    if m.load.Some? {
      LoadAppended(s.log, LoadRecord(KeyOf(s.tasks[t].op), t, m.load.value), k);
    }
  }

  lemma OtherKeepsLoad(s: State, s': State, t: Tid, m: Move, child: Option<Tid>, k: Key, o: Addr)
    requires Flights.Inv(s) && Flights.Inv(s') && Inv(s, k, o) && t in s.tasks && s.tasks[t].node in s.nodes
    requires Flights.SpawnOk(s, m, child) && s' == Moved(s, t, m, child)
    requires !Quiet.IsGet(s.tasks[t].op, k)
    requires Quiet.SparingMove(s.nodes[s.tasks[t].node], s.tasks[t], m, k)
    ensures AtMostOneLoad(s'.log, k) && LoadKept(s', k, o)
  {
    if m.load.Some? {
      LoadAppended(s.log, LoadRecord(KeyOf(s.tasks[t].op), t, m.load.value), k);
    }
    if HasLoad(s.log, k) && k !in s.nodes[o].main {
      LeaderIsGet(s, k, o);
      UnsavedInMap(s', s.nodes[o].loads.m[k], k, o);
    }
  }

  // An answer to a Get of k carries a value.
  lemma GoodAnswer(s: State, t: Tid, inp: Input, k: Key, o: Addr)
    requires Flights.Inv(s) && Requests.Inv(s) && Inv(s, k, o)
    requires Enabled(s, Run(t, inp)) && Quiet.IsGet(s.tasks[t].op, k) && inp.Answer?
    ensures inp.result.Value?
  {
    AnswersGet(s, t, inp, k);
    assert TaskInv(s, inp.child, k, o);
  }

  // What answers a Get of k is another Get of k, without a nil destination, that has ended.
  lemma AnswersGet(s: State, t: Tid, inp: Input, k: Key)
    requires Flights.Inv(s) && Requests.Inv(s)
    requires Enabled(s, Run(t, inp)) && Quiet.IsGet(s.tasks[t].op, k) && inp.Answer?
    ensures inp.child in s.tasks && s.tasks[inp.child].op == Get(k, false) && s.tasks[inp.child].pc.Ended?
    ensures inp.result == OverWire(s.tasks[inp.child].pc.outcome)
  {
    assert Flights.TaskOk(s, t) && Requests.KidsOk(s.tasks, s.tasks[t]);
  }

  // So does a flight that a Get of k has joined.
  lemma GoodWait(s: State, t: Tid, k: Key, o: Addr)
    requires Flights.Inv(s) && Inv(s, k, o) && t in s.tasks && Quiet.IsGet(s.tasks[t].op, k) && s.tasks[t].pc.Wait?
    ensures s.tasks[t].node in s.nodes
    ensures var g, c := s.nodes[s.tasks[t].node].loads, s.tasks[t].pc.call;
      c in g.calls && g.calls[c].done ==> g.calls[c].result.Value?
  {
    Flights.JoinedResult(s, t);
    assert TaskInv(s, s.tasks[t].pc.call, k, o);
    if s.nodes[s.tasks[t].node].loads.calls[s.tasks[t].pc.call].done {
      GoodSeen(s.tasks[s.tasks[t].pc.call], o);
    }
  }

  // A Get that has ended well, or is about to, is seen by others with its value.
  lemma GoodSeen(task: Task, o: Addr)
    requires Smooth(task, o) && task.op.Get? && !task.op.nilDest && (task.pc.Delete? || task.pc.Ended?)
    ensures Flights.Seen(task.pc.outcome).Value?
  {
  }

  lemma RunHasGoodInput(s: State, t: Tid, inp: Input, k: Key, o: Addr)
    requires Flights.Inv(s) && Requests.Inv(s) && Inv(s, k, o)
    requires Enabled(s, Run(t, inp)) && Allowed(s, Run(t, inp), k, o) && Quiet.IsGet(s.tasks[t].op, k)
    ensures GoodInput(s.nodes[s.tasks[t].node], s.tasks[t], inp, k, o)
  {
    assert TaskInv(s, t, k, o);
    if inp.Answer? {
      GoodAnswer(s, t, inp, k, o);
    }
    if s.tasks[t].pc.Wait? {
      GoodWait(s, t, k, o);
    }
  }

  lemma GetRunKeepsInv(s: State, s': State, t: Tid, m: Move, child: Option<Tid>, k: Key, o: Addr)
    requires Flights.Inv(s) && Flights.Inv(s') && Inv(s, k, o) && t in s.tasks && s.tasks[t].node in s.nodes
    requires Flights.SpawnOk(s, m, child) && s' == Moved(s, t, m, child)
    requires Quiet.IsGet(s.tasks[t].op, k) && Quiet.SparingMove(s.nodes[s.tasks[t].node], s.tasks[t], m, k)
    requires GetMove(s.nodes[s.tasks[t].node], s.tasks[t], m, k, o)
    ensures Inv(s', k, o)
  {
    GetKeepsLoad(s, s', t, m, child, k, o);
    forall u | u in s'.tasks
      ensures TaskInv(s', u, k, o)
    {
      if u in s.tasks {
        GetKeepsTask(s, s', t, m, child, u, k, o);
      }
    }
  }

  lemma OtherRunKeepsInv(s: State, s': State, t: Tid, m: Move, child: Option<Tid>, k: Key, o: Addr)
    requires Flights.Inv(s) && Flights.Inv(s') && Inv(s, k, o) && t in s.tasks && s.tasks[t].node in s.nodes
    requires Flights.SpawnOk(s, m, child) && s' == Moved(s, t, m, child)
    requires !Quiet.IsGet(s.tasks[t].op, k) && Quiet.SparingMove(s.nodes[s.tasks[t].node], s.tasks[t], m, k)
    ensures Inv(s', k, o)
  {
    OtherKeepsLoad(s, s', t, m, child, k, o);
    forall u | u in s'.tasks
      ensures TaskInv(s', u, k, o)
    {
      if u in s.tasks {
        OtherKeepsTask(s, s', t, m, child, u, k, o);
      }
    }
  }

  lemma RunKeepsInv(s: State, t: Tid, inp: Input, k: Key, o: Addr)
    requires Flights.Inv(s) && Requests.Inv(s) && Inv(s, k, o)
    requires Enabled(s, Run(t, inp)) && Allowed(s, Run(t, inp), k, o)
    ensures Inv(Apply(s, Run(t, inp)), k, o)
  {
    var s' := Apply(s, Run(t, inp));
    var m := Next(s.nodes[s.tasks[t].node], t, s.tasks[t], inp);
    assert TaskInv(s, t, k, o);
    Flights.SpawnsFresh(s, t, inp);
    Flights.StepKeepsInv(s, Run(t, inp));
    Quiet.NextSpares(s.nodes[s.tasks[t].node], t, s.tasks[t], inp, m, k);
    if Quiet.IsGet(s.tasks[t].op, k) {
      RunHasGoodInput(s, t, inp, k, o);
      assert Flights.TaskOk(s, t);
      GetOfKMoves(s.nodes[s.tasks[t].node], t, s.tasks[t], inp, m, k, o);
      GetRunKeepsInv(s, s', t, m, ChildOf(inp), k, o);
    } else {
      OtherRunKeepsInv(s, s', t, m, ChildOf(inp), k, o);
    }
  }

  lemma QuietKeepsInv(s: State, step: Step, k: Key, o: Addr)
    requires Inv(s, k, o) && Enabled(s, step) && !step.Run? && Allowed(s, step, k, o)
    ensures Inv(Apply(s, step), k, o)
  {
    var s' := Apply(s, step);
    forall u | u in s'.tasks
      ensures TaskInv(s', u, k, o)
    {
      QuietKeepsTask(s, step, u, k, o);
    }
  }

  lemma QuietKeepsTask(s: State, step: Step, u: Tid, k: Key, o: Addr)
    requires Inv(s, k, o) && Enabled(s, step) && !step.Run? && Allowed(s, step, k, o)
    requires u in Apply(s, step).tasks
    ensures o in Apply(s, step).nodes && TaskInv(Apply(s, step), u, k, o)
  {
    if u in s.tasks {
      assert TaskInv(s, u, k, o);
    }
  }

  ghost predicate AllInv(s: State, k: Key, o: Addr) {
    Flights.Inv(s) && Requests.Inv(s) && Inv(s, k, o)
  }

  lemma {:induction false} Invariant(ss: seq<State>, steps: seq<Step>, k: Key, o: Addr, i: nat)
    requires IsRun(ss, steps) && Start(ss[0], k, o) && i < |ss|
    requires forall j :: 0 <= j < |steps| ==> Allowed(ss[j], steps[j], k, o)
    ensures AllInv(ss[i], k, o)
  {
    if i == 0 {
      Flights.InitInv(ss[0]);
    } else {
      Invariant(ss, steps, k, o, i - 1);
      Flights.StepKeepsInv(ss[i - 1], steps[i - 1]);
      Requests.StepKeepsInv(ss[i - 1], steps[i - 1]);
      if steps[i - 1].Run? {
        RunKeepsInv(ss[i - 1], steps[i - 1].t, steps[i - 1].input, k, o);
      } else {
        QuietKeepsInv(ss[i - 1], steps[i - 1], k, o);
      }
    }
  }

  // At most one getter call for k in the whole cluster, in every allowed run.
  lemma OneLoadPerCluster(ss: seq<State>, steps: seq<Step>, k: Key, o: Addr, i: nat)
    requires IsRun(ss, steps) && Start(ss[0], k, o) && i < |ss|
    requires forall j :: 0 <= j < |steps| ==> Allowed(ss[j], steps[j], k, o)
    ensures AtMostOneLoad(ss[i].log, k)
  {
    Invariant(ss, steps, k, o, i);
  }

  lemma {:induction false} NothingWritten(ss: seq<State>, steps: seq<Step>, k: Key, o: Addr, i: nat, v: View)
    requires IsRun(ss, steps) && Init(ss[0]) && i < |ss|
    requires forall j :: 0 <= j < |steps| ==> Allowed(ss[j], steps[j], k, o)
    ensures (k, v) !in ss[i].written
  {
    if i > 0 {
      NothingWritten(ss, steps, k, o, i - 1, v);
    }
  }

  // Record j is the only load of k, and v is the value it produced.
  ghost predicate SoleSource(log: seq<LoadRecord>, k: Key, j: int, v: View) {
    && 0 <= j < |log| && log[j].key == k && log[j].out.Loaded?
    && (forall j' :: 0 <= j' < |log| && log[j'].key == k ==> j' == j)
    && (v == log[j].out.view || v == Carry(log[j].out.view))
  }

  // Started cold, a Get of k that returned a value means the getter ran for k exactly once, and
  // that value is what this one call produced: all callers receive copies of one answer.
  lemma ExactlyOneLoad(ss: seq<State>, steps: seq<Step>, k: Key, o: Addr, i: nat, t: Tid)
    requires IsRun(ss, steps) && Start(ss[0], k, o) && Transparency.Cold(ss[0]) && i < |ss|
    requires forall j :: 0 <= j < |steps| ==> Allowed(ss[j], steps[j], k, o)
    requires t in ss[i].tasks && Quiet.IsGet(ss[i].tasks[t].op, k)
    requires ss[i].tasks[t].pc.Ended? && Good(ss[i].tasks[t].pc.outcome)
    ensures exists j :: SoleSource(ss[i].log, k, j, ss[i].tasks[t].pc.outcome.result.view)
  {
    OneLoadPerCluster(ss, steps, k, o, i);
    Transparency.GetReturnsSource(ss, steps, i, t);
    var v := ss[i].tasks[t].pc.outcome.result.view;
    var w :| (k, w) in Transparency.SourcesOf(ss[i]) && (v == w || v == Carry(w));
    NothingWritten(ss, steps, k, o, i, w);
    var r :| r in ss[i].log && r.out.Loaded? && r.key == k && r.out.view == w;
    var j :| 0 <= j < |ss[i].log| && ss[i].log[j] == r;
    assert SoleSource(ss[i].log, k, j, v);
  }

  // The starting condition is what SetPeers establishes: every node was given the same addresses
  // with its own marked as self, and no two peers share a ring point.
  lemma AgreedRingsStart(s: State, k: Key, digest: string -> string, n: nat, hashFn: Ring.HashFn) returns (o: Addr)
    requires Init(s) && forall a :: a in s.nodes && Ring.IsLocal(s.nodes[a].ring, k) ==> s.nodes[a].caching
    requires Ring.Agreed(map a | a in s.nodes :: s.nodes[a].ring, digest, n, hashFn)
    ensures Start(s, k, o)
  {
    var rings := map a | a in s.nodes :: s.nodes[a].ring;
    o := Ring.SingleOwner(rings, digest, n, hashFn, k);
    forall a | a in s.nodes
      ensures RoutesTo(a, s.nodes[a].ring, k, o)
    {
      assert a in rings && rings[a] == s.nodes[a].ring;
    }
  }
}
