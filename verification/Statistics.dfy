// The counters of GroupStats in every reachable state: each one counts the Get calls of its node
// that carry a certain mark, and the marks exclude or imply one another.
module Statistics {
  import opened Views
  import opened Wire
  import opened Protocol
  import Flights

  // One mark per counter.
  datatype Mark = Gets | CacheHits | Loads | LoadsDeduped | PeerLoads | PeerErrors | LocalLoads | LocalLoadErrs
                | Rehits | NilSinks

  predicate Has(task: Task, f: Mark) {
    var tr := task.trail;
    match f
    case Gets => tr.got
    case CacheHits => tr.hit || tr.rehit
    case Loads => tr.load
    case LoadsDeduped => tr.dedup
    case PeerLoads => tr.peer
    case PeerErrors => tr.peerFail
    case LocalLoads => tr.local
    case LocalLoadErrs => tr.localErr
    case Rehits => tr.rehit
    case NilSinks => tr.got && task.op.Get? && task.op.nilDest
  }

  // The tasks of node n with a mark.
  function Marked(tasks: map<Tid, Task>, n: Addr, f: Mark): (ts: set<Tid>) {
    set t | t in tasks && tasks[t].node == n && Has(tasks[t], f)
  }

  function Counter(st: Stats, f: Mark): (i: nat)
    requires !f.Rehits? && !f.NilSinks?
  {
    match f
    case Gets => st.gets
    case CacheHits => st.hits
    case Loads => st.loads
    case LoadsDeduped => st.dedups
    case PeerLoads => st.peerLoads
    case PeerErrors => st.peerErrors
    case LocalLoads => st.localLoads
    case LocalLoadErrs => st.localErrs
  }

  function One(b: bool): (i: nat) {
    if b then 1 else 0
  }

  // ---------- marks and program points ----------

  predicate NoMarks(tr: Trail) {
    !tr.hit && !tr.rehit && !tr.load && !tr.dedup && !tr.peer && !tr.peerErr && !tr.local && !tr.localErr
  }

  // Before the load begins.
  predicate Early(pc: Pc) {
    (pc.LookMain? && !pc.again) || (pc.LookHot? && !pc.again) || (pc.CountHit? && !pc.again) || pc.CountLoad?
  }

  // Between counting the load and counting the flight.
  predicate Joining(pc: Pc) {
    pc.Enter? || pc.Wait? || (pc.LookMain? && pc.again) || (pc.LookHot? && pc.again)
    || (pc.CountHit? && pc.again) || pc.CountDedup?
  }

  // The flight is counted and how it ends is not.
  predicate Loading(pc: Pc) {
    pc.Pick? || pc.CallPeer? || pc.AwaitPeer? || pc.PopHot? || pc.CountPeer?
    || pc.PeerFailed? || pc.RunGetter? || pc.CountLocal?
  }

  // How a flight was settled: a hit on the second look, a peer's value, a local value, a local
  // error, a returned peer error, or a panic.
  predicate Settled(tr: Trail, o: Outcome) {
    && !tr.hit && tr.load
    && (tr.rehit ==> !tr.dedup)
    && (!tr.dedup ==> tr.rehit && o.Return? && !tr.peer && !tr.peerErr && !tr.local && !tr.localErr)
    && (tr.dedup ==> One(tr.peer) + One(tr.peerErr) + One(tr.local) + One(tr.localErr) == if o.Panic? then 0 else 1)
  }

  // A call that ended without leading a flight: nil sink, hit on the first look, or follower.
  predicate EndedOutside(tr: Trail, nilDest: bool) {
    && !tr.rehit && !tr.dedup && !tr.peer && !tr.peerErr && !tr.local && !tr.localErr
    && (if nilDest then !tr.hit && !tr.load else tr.hit != tr.load)
  }

  // Past the answer of the peer.
  predicate MayHaveFailed(task: Task) {
    task.op.Get? && (task.pc.RunGetter? || task.pc.CountLocal? || task.pc.PopMain? || task.pc.Store? || task.pc.Signal?
                     || task.pc.Delete? || task.pc.Ended?)
  }

  predicate TrailOk(task: Task) {
    var tr, pc := task.trail, task.pc;
    if tr.peerFail && !MayHaveFailed(task) then false
    else if !task.op.Get? then !tr.got && NoMarks(tr)
    else if pc.Begin? then !tr.got && NoMarks(tr)
    else
      && tr.got
      && (Early(pc) ==> NoMarks(tr))
      && (Joining(pc) ==> NoMarks(tr.(load := false)) && tr.load)
      && (Loading(pc) ==> NoMarks(tr.(load := false, dedup := false)) && tr.load && tr.dedup)
      && (pc.PopMain? ==> Settled(tr, Return(Done)) && tr.local)
      && (pc.Store? || pc.Signal? || pc.Delete? ==> Settled(tr, pc.outcome))
      && (pc.Store? ==> pc.outcome.Return?)
      && (pc.Ended? ==> Settled(tr, pc.outcome) || (pc.outcome.Return? && EndedOutside(tr, task.op.nilDest)))
      && (task.op.nilDest ==> pc.Ended? && EndedOutside(tr, true))
  }

  // ---------- one move ----------

  ghost predicate CountMove(st: Stats, st': Stats, task: Task, task': Task) {
    forall f: Mark :: !f.Rehits? && !f.NilSinks? ==>
      Counter(st', f) - Counter(st, f) == One(Has(task', f)) - One(Has(task, f))
  }

  lemma NextCounts(nd: Node, t: Tid, task: Task, inp: Input, m: Move)
    requires m == Next(nd, t, task, inp) && m.Move? && Flights.Shape(task.op, task.pc) && TrailOk(task)
    ensures m.task.node == task.node && TrailOk(m.task)
    ensures CountMove(nd.stats, m.node.stats, task, m.task)
  {
    if InDo(task.pc) {
      DoCounts(nd, t, task, m);
    } else if task.op.Get? {
      GetCounts(nd, task, inp, m);
    } else {
    }
  }

  lemma DoCounts(nd: Node, t: Tid, task: Task, m: Move)
    requires HasKey(task.op) && InDo(task.pc) && m == NextFlight(nd, t, task) && m.Move?
    requires Flights.Shape(task.op, task.pc) && TrailOk(task)
    ensures m.task.node == task.node && TrailOk(m.task)
    ensures CountMove(nd.stats, m.node.stats, task, m.task)
  {
    assert m.node.stats == nd.stats;
  }

  lemma GetCounts(nd: Node, task: Task, inp: Input, m: Move)
    requires task.op.Get? && Fits(task.pc, inp) && m == NextGet(nd, task, inp) && m.Move? && !InDo(task.pc)
    requires Flights.Shape(task.op, task.pc) && TrailOk(task)
    ensures m.task.node == task.node && TrailOk(m.task)
    ensures CountMove(nd.stats, m.node.stats, task, m.task)
  {
    if task.pc.Begin? || Early(task.pc) || Joining(task.pc) {
      LookCounts(nd, task, inp, m);
    } else if task.pc.Pick? || task.pc.RunGetter? || task.pc.CountLocal? || task.pc.PopMain? {
      LocalCounts(nd, task, inp, m);
    } else {
      PeerCounts(nd, task, inp, m);
    }
  }

  lemma LookCounts(nd: Node, task: Task, inp: Input, m: Move)
    requires task.op.Get? && Fits(task.pc, inp) && m == NextGet(nd, task, inp) && m.Move?
    requires Flights.Shape(task.op, task.pc) && TrailOk(task) && (task.pc.Begin? || Early(task.pc) || Joining(task.pc))
    ensures m.task.node == task.node && TrailOk(m.task)
    ensures CountMove(nd.stats, m.node.stats, task, m.task)
  {
    if task.pc.LookMain? || task.pc.LookHot? {
      LookupCounts(nd, task, task.pc.LookMain?, task.pc.again, inp.now, m);
    } else {
      StartCounts(nd, task, inp, m);
    }
  }

  lemma LookupCounts(nd: Node, task: Task, inMain: bool, again: bool, now: Time, m: Move)
    requires task.op.Get? && m == Look(nd, task, inMain, again, now)
    requires Flights.Shape(task.op, task.pc) && TrailOk(task)
    requires (inMain && task.pc == LookMain(again)) || (!inMain && task.pc == LookHot(again))
    ensures m.task.node == task.node && TrailOk(m.task)
    ensures CountMove(nd.stats, m.node.stats, task, m.task)
  {
  }

  lemma StartCounts(nd: Node, task: Task, inp: Input, m: Move)
    requires task.op.Get? && Fits(task.pc, inp) && m == NextGet(nd, task, inp) && m.Move?
    requires Flights.Shape(task.op, task.pc) && TrailOk(task) && (task.pc.Begin? || Early(task.pc) || Joining(task.pc))
    requires !task.pc.LookMain? && !task.pc.LookHot?
    ensures m.task.node == task.node && TrailOk(m.task)
    ensures CountMove(nd.stats, m.node.stats, task, m.task)
  {
    if task.pc.CountHit? {
      HitCounts(nd, task, inp, m);
    } else {
      FirstCounts(nd, task, inp, m);
    }
  }

  lemma HitCounts(nd: Node, task: Task, inp: Input, m: Move)
    requires task.op.Get? && Fits(task.pc, inp) && m == NextGet(nd, task, inp) && m.Move?
    requires Flights.Shape(task.op, task.pc) && TrailOk(task) && (task.pc.Begin? || Early(task.pc) || Joining(task.pc))
    requires !task.pc.LookMain? && !task.pc.LookHot?
    requires task.pc.CountHit?
    ensures m.task.node == task.node && TrailOk(m.task)
    ensures CountMove(nd.stats, m.node.stats, task, m.task)
  {
  }

  lemma FirstCounts(nd: Node, task: Task, inp: Input, m: Move)
    requires task.op.Get? && Fits(task.pc, inp) && m == NextGet(nd, task, inp) && m.Move?
    requires Flights.Shape(task.op, task.pc) && TrailOk(task) && (task.pc.Begin? || Early(task.pc) || Joining(task.pc))
    requires !task.pc.LookMain? && !task.pc.LookHot?
    requires !task.pc.CountHit?
    ensures m.task.node == task.node && TrailOk(m.task)
    ensures CountMove(nd.stats, m.node.stats, task, m.task)
  {
  }

  lemma PeerCounts(nd: Node, task: Task, inp: Input, m: Move)
    requires task.op.Get? && Fits(task.pc, inp) && m == NextGet(nd, task, inp) && m.Move?
    requires Flights.Shape(task.op, task.pc) && TrailOk(task)
    requires task.pc.CallPeer? || task.pc.AwaitPeer? || task.pc.PopHot? || task.pc.CountPeer? || task.pc.PeerFailed?
    ensures m.task.node == task.node && TrailOk(m.task)
    ensures CountMove(nd.stats, m.node.stats, task, m.task)
  {
    if task.pc.CountPeer? || task.pc.PeerFailed? {
      AnswerCounts(nd, task, inp, m);
    } else {
      assert m.node.stats == nd.stats;
      AskCounts(nd, task, inp, m);
    }
  }

  lemma AskCounts(nd: Node, task: Task, inp: Input, m: Move)
    requires task.op.Get? && Fits(task.pc, inp) && m == NextGet(nd, task, inp) && m.Move?
    requires TrailOk(task) && (task.pc.CallPeer? || task.pc.AwaitPeer? || task.pc.PopHot?)
    ensures m.task.node == task.node && TrailOk(m.task)
    ensures CountMove(nd.stats, m.node.stats, task, m.task)
  {
    assert m.node.stats == nd.stats;
  }

  lemma AnswerCounts(nd: Node, task: Task, inp: Input, m: Move)
    requires task.op.Get? && Fits(task.pc, inp) && m == NextGet(nd, task, inp) && m.Move?
    requires Flights.Shape(task.op, task.pc) && TrailOk(task) && (task.pc.CountPeer? || task.pc.PeerFailed?)
    ensures m.task.node == task.node && TrailOk(m.task)
    ensures CountMove(nd.stats, m.node.stats, task, m.task)
  {
    if task.pc.CountPeer? {
      PeerValueCounts(nd, task, inp, m);
    } else {
      PeerErrorCounts(nd, task, inp, m);
    }
  }

  lemma PeerValueCounts(nd: Node, task: Task, inp: Input, m: Move)
    requires task.op.Get? && Fits(task.pc, inp) && m == NextGet(nd, task, inp) && m.Move?
    requires Flights.Shape(task.op, task.pc) && TrailOk(task) && (task.pc.CountPeer? || task.pc.PeerFailed?)
    requires task.pc.CountPeer?
    ensures m.task.node == task.node && TrailOk(m.task)
    ensures CountMove(nd.stats, m.node.stats, task, m.task)
  {
  }

  lemma PeerErrorCounts(nd: Node, task: Task, inp: Input, m: Move)
    requires task.op.Get? && Fits(task.pc, inp) && m == NextGet(nd, task, inp) && m.Move?
    requires Flights.Shape(task.op, task.pc) && TrailOk(task) && (task.pc.CountPeer? || task.pc.PeerFailed?)
    requires !task.pc.CountPeer?
    ensures m.task.node == task.node && TrailOk(m.task)
    ensures CountMove(nd.stats, m.node.stats, task, m.task)
  {
    if Final(task.pc.error) {
      assert m.node.stats == nd.stats;
    } else {
      assert m.node.stats == nd.stats.(peerErrors := nd.stats.peerErrors + 1);
    }
  }

  lemma LocalCounts(nd: Node, task: Task, inp: Input, m: Move)
    requires task.op.Get? && Fits(task.pc, inp) && m == NextGet(nd, task, inp) && m.Move?
    requires Flights.Shape(task.op, task.pc) && TrailOk(task)
    requires task.pc.Pick? || task.pc.RunGetter? || task.pc.CountLocal? || task.pc.PopMain?
    ensures m.task.node == task.node && TrailOk(m.task)
    ensures CountMove(nd.stats, m.node.stats, task, m.task)
  {
    if task.pc.CountLocal? {
      LoadCounts(nd, task, inp, m);
    } else {
      GetterCounts(nd, task, inp, m);
    }
  }

  lemma LoadCounts(nd: Node, task: Task, inp: Input, m: Move)
    requires task.op.Get? && Fits(task.pc, inp) && m == NextGet(nd, task, inp) && m.Move?
    requires Flights.Shape(task.op, task.pc) && TrailOk(task)
    requires task.pc.Pick? || task.pc.RunGetter? || task.pc.CountLocal? || task.pc.PopMain?
    requires task.pc.CountLocal?
    ensures m.task.node == task.node && TrailOk(m.task)
    ensures CountMove(nd.stats, m.node.stats, task, m.task)
  {
  }

  lemma GetterCounts(nd: Node, task: Task, inp: Input, m: Move)
    requires task.op.Get? && Fits(task.pc, inp) && m == NextGet(nd, task, inp) && m.Move?
    requires Flights.Shape(task.op, task.pc) && TrailOk(task)
    requires task.pc.Pick? || task.pc.RunGetter? || task.pc.CountLocal? || task.pc.PopMain?
    requires !task.pc.CountLocal?
    ensures m.task.node == task.node && TrailOk(m.task)
    ensures CountMove(nd.stats, m.node.stats, task, m.task)
  {
  }

  // ---------- counting ----------

  // Changing one task and adding fresh ones changes the count by that task's mark only.
  lemma CountChanges(tasks: map<Tid, Task>, t: Tid, task': Task, spawn: Option<Task>, child: Option<Tid>, n: Addr,
                     f: Mark)
    requires t in tasks && task'.node == tasks[t].node
    requires spawn.Some? ==> child.Some? && child.value !in tasks && spawn.value.trail == FRESH
    ensures var tasks' := if spawn.Some? then tasks[t := task'][child.value := spawn.value] else tasks[t := task'];
      |Marked(tasks', n, f)|
      == |Marked(tasks, n, f)| + (if n == task'.node then One(Has(task', f)) - One(Has(tasks[t], f)) else 0)
  {
    var tasks' := if spawn.Some? then tasks[t := task'][child.value := spawn.value] else tasks[t := task'];
    SameButOne(tasks, tasks', t, n, f);
    SizeChange(Marked(tasks, n, f), Marked(tasks', n, f), t);
  }

  lemma SameButOne(tasks: map<Tid, Task>, tasks': map<Tid, Task>, t: Tid, n: Addr, f: Mark)
    requires forall u :: u in tasks && u != t ==> u in tasks' && tasks'[u] == tasks[u]
    requires forall u :: u in tasks' && u !in tasks ==> tasks'[u].trail == FRESH
    requires t in tasks && t in tasks'
    ensures Marked(tasks', n, f) - {t} == Marked(tasks, n, f) - {t}
    ensures t in Marked(tasks', n, f) <==> tasks'[t].node == n && Has(tasks'[t], f)
    ensures t in Marked(tasks, n, f) <==> tasks[t].node == n && Has(tasks[t], f)
  {
    var a, b := Marked(tasks, n, f), Marked(tasks', n, f);
    forall u | u != t
      ensures u in a <==> u in b
    {
      if u in tasks {
        assert tasks'[u] == tasks[u];
      } else if u in tasks' {
        assert !Has(tasks'[u], f);
      }
    }
  }

  lemma SizeChange(a: set<Tid>, b: set<Tid>, t: Tid)
    requires b - {t} == a - {t}
    ensures |b| == |a| + One(t in b) - One(t in a)
  {
    assert t in a ==> a == (a - {t}) + {t};
    assert t in b ==> b == (b - {t}) + {t};
    assert t !in a ==> a == a - {t};
    assert t !in b ==> b == b - {t};
  }

  ghost predicate Counted(s: State, n: Addr)
    requires n in s.nodes
  {
    forall f: Mark :: !f.Rehits? && !f.NilSinks? ==> Counter(s.nodes[n].stats, f) == |Marked(s.tasks, n, f)|
  }

  ghost predicate Inv(s: State) {
    && (forall t {:trigger TrailOk(s.tasks[t])} :: t in s.tasks ==> TrailOk(s.tasks[t]))
    && (forall n {:trigger Counted(s, n)} :: n in s.nodes ==> Counted(s, n))
  }

  lemma MovedCounted(s: State, t: Tid, m: Move, child: Option<Tid>, n: Addr)
    requires t in s.tasks && s.tasks[t].node in s.nodes && Flights.SpawnOk(s, m, child) && n in s.nodes && Counted(s, n)
    requires m.task.node == s.tasks[t].node
    requires CountMove(s.nodes[s.tasks[t].node].stats, m.node.stats, s.tasks[t], m.task)
    ensures Counted(Moved(s, t, m, child), n)
  {
    forall f: Mark | !f.Rehits? && !f.NilSinks?
      ensures Counter(Moved(s, t, m, child).nodes[n].stats, f) == |Marked(Moved(s, t, m, child).tasks, n, f)|
    {
      CountChanges(s.tasks, t, m.task, m.spawn, child, n, f);
    }
  }

  lemma RunKeepsInv(s: State, t: Tid, inp: Input)
    requires Flights.Inv(s) && Inv(s) && Enabled(s, Run(t, inp))
    ensures Inv(Apply(s, Run(t, inp)))
  {
    var s' := Apply(s, Run(t, inp));
    var m := Next(s.nodes[s.tasks[t].node], t, s.tasks[t], inp);
    assert Flights.TaskOk(s, t) && TrailOk(s.tasks[t]);
    NextCounts(s.nodes[s.tasks[t].node], t, s.tasks[t], inp, m);
    Flights.SpawnsFresh(s, t, inp);
    MovedInv(s, s', t, m, ChildOf(inp));
  }

  lemma MovedInv(s: State, s': State, t: Tid, m: Move, child: Option<Tid>)
    requires Inv(s) && t in s.tasks && s.tasks[t].node in s.nodes && Flights.SpawnOk(s, m, child)
    requires s' == Moved(s, t, m, child) && m.task.node == s.tasks[t].node && TrailOk(m.task)
    requires CountMove(s.nodes[s.tasks[t].node].stats, m.node.stats, s.tasks[t], m.task)
    ensures Inv(s')
  {
    forall u | u in s'.tasks
      ensures TrailOk(s'.tasks[u])
    {
      if u in s.tasks {
        assert TrailOk(s.tasks[u]);
      }
    }
    forall n | n in s'.nodes
      ensures Counted(s', n)
    {
      MovedCounted(s, t, m, child, n);
    }
  }

  lemma QuietKeepsInv(s: State, step: Step)
    requires Inv(s) && Enabled(s, step) && !step.Run?
    ensures Inv(Apply(s, step))
  {
    var s' := Apply(s, step);
    forall u | u in s'.tasks
      ensures TrailOk(s'.tasks[u])
    {
      if u in s.tasks {
        assert TrailOk(s.tasks[u]);
      }
    }
    forall n | n in s'.nodes
      ensures Counted(s', n)
    {
      assert Counted(s, n);
      forall f: Mark | !f.Rehits? && !f.NilSinks?
        ensures Counter(s'.nodes[n].stats, f) == |Marked(s'.tasks, n, f)|
      {
        SameMarked(s.tasks, s'.tasks, n, f);
      }
    }
  }

  lemma SameMarked(tasks: map<Tid, Task>, tasks': map<Tid, Task>, n: Addr, f: Mark)
    requires forall t :: t in tasks ==> t in tasks' && tasks'[t] == tasks[t]
    requires forall t :: t in tasks' && t !in tasks ==> tasks'[t].trail == FRESH
    ensures Marked(tasks', n, f) == Marked(tasks, n, f)
  {
  }

  lemma {:induction false} Invariant(ss: seq<State>, steps: seq<Step>, i: nat)
    requires IsRun(ss, steps) && Init(ss[0]) && i < |ss|
    ensures Flights.Inv(ss[i]) && Inv(ss[i])
  {
    if i == 0 {
      Flights.InitInv(ss[0]);
      InitCounted(ss[0]);
    } else {
      Invariant(ss, steps, i - 1);
      Flights.StepKeepsInv(ss[i - 1], steps[i - 1]);
      if steps[i - 1].Run? {
        RunKeepsInv(ss[i - 1], steps[i - 1].t, steps[i - 1].input);
      } else {
        QuietKeepsInv(ss[i - 1], steps[i - 1]);
      }
    }
  }

  lemma InitCounted(s: State)
    requires Init(s)
    ensures Inv(s)
  {
    forall n, f: Mark | n in s.nodes
      ensures Marked(s.tasks, n, f) == {}
    {
    }
  }

  // ---------- the laws of the counters ----------

  lemma SubsetSize(a: set<Tid>, b: set<Tid>)
    requires a <= b
    ensures |a| <= |b|
  {
    assert b == a + (b - a);
  }

  lemma DisjointSize(a: set<Tid>, b: set<Tid>)
    requires a !! b
    ensures |a + b| == |a| + |b|
  {
  }

  lemma SumOfParts(d: set<Tid>, p: set<Tid>, l: set<Tid>, e: set<Tid>, u: set<Tid>)
    requires forall t :: One(t in p) + One(t in l) + One(t in e) + One(t in u) == One(t in d)
    ensures |d| == |p| + |l| + |e| + |u|
  {
    forall t
      ensures t in d <==> t in p + l + e + u
      ensures !(t in p && t in l) && !(t in p + l && t in e) && !(t in p + l + e && t in u)
    {
      assert One(t in p) + One(t in l) + One(t in e) + One(t in u) == One(t in d);
    }
    assert d == p + l + e + u;
    DisjointSize(p, l);
    DisjointSize(p + l, e);
    DisjointSize(p + l + e, u);
  }

  // Two sets and a third apart from both make up g; r is what the two share.
  lemma SumOfOverlap(g: set<Tid>, l: set<Tid>, h: set<Tid>, z: set<Tid>, r: set<Tid>)
    requires forall t :: One(t in l) + One(t in h) + One(t in z) == One(t in g) + One(t in r)
    requires forall t :: t in r <==> t in l && t in h
    requires forall t :: t in z ==> t !in l && t !in h
    ensures |l| + |h| + |z| == |g| + |r|
  {
    forall t
      ensures t in g <==> t in (l + h) + z
    {
      assert One(t in l) + One(t in h) + One(t in z) == One(t in g) + One(t in r);
    }
    assert g == (l + h) + z && l * h == r;
    DisjointSize(l + h, z);
    assert |l + h| == |l| + |h| - |l * h|;
  }

  // Flights counted by LoadsDeduped whose ending no counter records: still running, panicked, or
  // ended by an error that a peer returned.
  ghost function Unsettled(s: State, n: Addr): (ts: set<Tid>) {
    set t | t in s.tasks && s.tasks[t].node == n && s.tasks[t].op.Get? && IsUnsettled(s.tasks[t])
  }

  predicate IsUnsettled(task: Task) {
    || Loading(task.pc)
    || ((task.pc.Signal? || task.pc.Delete? || task.pc.Ended?) && task.pc.outcome.Panic?)
    || task.trail.peerErr
  }

  // How the marks of one task relate.
  lemma MarkLaws(task: Task)
    requires TrailOk(task) && Flights.Shape(task.op, task.pc)
    ensures Has(task, CacheHits) || Has(task, LoadsDeduped) || Has(task, Loads) ==> Has(task, Gets)
    ensures !(Has(task, CacheHits) && Has(task, LoadsDeduped))
    ensures Has(task, LoadsDeduped) ==> Has(task, Loads)
    ensures One(Has(task, PeerLoads)) + One(Has(task, LocalLoads)) + One(Has(task, LocalLoadErrs))
          + One(task.op.Get? && IsUnsettled(task)) == One(Has(task, LoadsDeduped))
  {
  }

  // CacheHits + LoadsDeduped <= Gets and LoadsDeduped <= Loads <= Gets, in every reachable state.
  lemma CounterBounds(ss: seq<State>, steps: seq<Step>, i: nat, n: Addr)
    requires IsRun(ss, steps) && Init(ss[0]) && i < |ss| && n in ss[i].nodes
    ensures var st := ss[i].nodes[n].stats;
      st.hits + st.dedups <= st.gets && st.dedups <= st.loads <= st.gets
  {
    Invariant(ss, steps, i);
    var s := ss[i];
    assert Counted(s, n);
    var g, h, l, d := Marked(s.tasks, n, Gets), Marked(s.tasks, n, CacheHits),
                      Marked(s.tasks, n, Loads), Marked(s.tasks, n, LoadsDeduped);
    forall t | t in s.tasks
      ensures (t in h || t in d || t in l ==> t in g) && !(t in h && t in d) && (t in d ==> t in l)
    {
      assert TrailOk(s.tasks[t]) && Flights.TaskOk(s, t);
      MarkLaws(s.tasks[t]);
    }
    DisjointSize(h, d);
    SubsetSize(h + d, g);
    SubsetSize(d, l);
    SubsetSize(l, g);
    assert Counter(s.nodes[n].stats, Gets) == |g| && Counter(s.nodes[n].stats, CacheHits) == |h|;
    assert Counter(s.nodes[n].stats, Loads) == |l| && Counter(s.nodes[n].stats, LoadsDeduped) == |d|;
  }

  // Every counted flight is settled in exactly one way or not at all.
  lemma FlightsAddUp(ss: seq<State>, steps: seq<Step>, i: nat, n: Addr)
    requires IsRun(ss, steps) && Init(ss[0]) && i < |ss| && n in ss[i].nodes
    ensures var st := ss[i].nodes[n].stats;
      st.dedups == st.peerLoads + st.localLoads + st.localErrs + |Unsettled(ss[i], n)|
  {
    Invariant(ss, steps, i);
    FlightsAddUpIn(ss[i], n);
  }

  lemma FlightsAddUpIn(s: State, n: Addr)
    requires Flights.Inv(s) && Inv(s) && n in s.nodes
    ensures var st := s.nodes[n].stats;
      st.dedups == st.peerLoads + st.localLoads + st.localErrs + |Unsettled(s, n)|
  {
    assert Counted(s, n);
    var d, p, l, e := Marked(s.tasks, n, LoadsDeduped), Marked(s.tasks, n, PeerLoads),
                      Marked(s.tasks, n, LocalLoads), Marked(s.tasks, n, LocalLoadErrs);
    var u := Unsettled(s, n);
    forall t
      ensures One(t in p) + One(t in l) + One(t in e) + One(t in u) == One(t in d)
    {
      if t in s.tasks && s.tasks[t].node == n {
        assert TrailOk(s.tasks[t]) && Flights.TaskOk(s, t);
        MarkLaws(s.tasks[t]);
      }
    }
    SumOfParts(d, p, l, e, u);
    assert Counter(s.nodes[n].stats, LoadsDeduped) == |d| && Counter(s.nodes[n].stats, PeerLoads) == |p|;
    assert Counter(s.nodes[n].stats, LocalLoads) == |l| && Counter(s.nodes[n].stats, LocalLoadErrs) == |e|;
  }

  ghost predicate AllEnded(s: State, n: Addr) {
    forall t :: t in s.tasks && s.tasks[t].node == n && s.tasks[t].op.Get? ==> s.tasks[t].pc.Ended?
  }

  lemma EndedMarkLaws(task: Task)
    requires TrailOk(task) && Flights.Shape(task.op, task.pc) && (task.op.Get? ==> task.pc.Ended?)
    ensures One(Has(task, Loads)) + One(Has(task, CacheHits)) + One(Has(task, NilSinks))
            == One(Has(task, Gets)) + One(Has(task, Rehits))
    ensures Has(task, Rehits) <==> Has(task, Loads) && Has(task, CacheHits)
    ensures Has(task, NilSinks) ==> !Has(task, Loads) && !Has(task, CacheHits)
  {
  }

  // Loads is documented as Gets - CacheHits. When all Gets of a node have ended this holds
  // exactly when as many of them hit on the second look, inside the flight, as were called with
  // a nil sink: the second look counts a hit for a call already counted as a load.
  lemma LoadsAreGetsMinusHits(ss: seq<State>, steps: seq<Step>, i: nat, n: Addr)
    requires IsRun(ss, steps) && Init(ss[0]) && i < |ss| && n in ss[i].nodes && AllEnded(ss[i], n)
    ensures var st, rehits, nils := ss[i].nodes[n].stats, |Marked(ss[i].tasks, n, Rehits)|,
                                   |Marked(ss[i].tasks, n, NilSinks)|;
      st.loads + st.hits + nils == st.gets + rehits && (st.loads == st.gets - st.hits <==> rehits == nils)
  {
    Invariant(ss, steps, i);
    LoadsAreGetsMinusHitsIn(ss[i], n);
  }

  lemma LoadsAreGetsMinusHitsIn(s: State, n: Addr)
    requires Flights.Inv(s) && Inv(s) && n in s.nodes && AllEnded(s, n)
    ensures var st, rehits, nils := s.nodes[n].stats, |Marked(s.tasks, n, Rehits)|, |Marked(s.tasks, n, NilSinks)|;
      st.loads + st.hits + nils == st.gets + rehits && (st.loads == st.gets - st.hits <==> rehits == nils)
  {
    assert Counted(s, n);
    var g, h, l := Marked(s.tasks, n, Gets), Marked(s.tasks, n, CacheHits), Marked(s.tasks, n, Loads);
    var r, z := Marked(s.tasks, n, Rehits), Marked(s.tasks, n, NilSinks);
    forall t
      ensures One(t in l) + One(t in h) + One(t in z) == One(t in g) + One(t in r)
      ensures t in r <==> t in l && t in h
      ensures t in z ==> t !in l && t !in h
    {
      if t in s.tasks && s.tasks[t].node == n {
        assert TrailOk(s.tasks[t]) && Flights.TaskOk(s, t);
        EndedMarkLaws(s.tasks[t]);
      }
    }
    SumOfOverlap(g, l, h, z, r);
    assert Counter(s.nodes[n].stats, Gets) == |g| && Counter(s.nodes[n].stats, CacheHits) == |h|
           && Counter(s.nodes[n].stats, Loads) == |l|;
  }
}
