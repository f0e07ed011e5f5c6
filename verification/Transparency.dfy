// Cache transparency: whatever the interleaving, evictions, expiries, removals, peer failures and
// ring changes, a successful Get of k returns something a getter produced for k or a Set wrote to k.
module Transparency {
  import opened Views
  import opened Wire
  import opened Protocol
  import Flights
  import Requests

  type Sources = set<(Key, View)>

  // All values that getters have produced and Sets have been asked to write, by key.
  ghost function SourcesOf(s: State): (src: Sources) {
    s.written + (set r | r in s.log && r.out.Loaded? :: (r.key, r.out.view))
  }

  // v is such a value for k, possibly stamped by the network on its way.
  ghost predicate Legit(src: Sources, k: Key, v: View) {
    exists w :: (k, w) in src && (v == w || v == Carry(w))
  }

  lemma LegitCarried(src: Sources, k: Key, v: View)
    requires Legit(src, k, v)
    ensures Legit(src, k, Carry(v))
  {
    var w :| (k, w) in src && (v == w || v == Carry(w));
    CarryTwice(w);
  }

  ghost predicate LegitResult(src: Sources, k: Key, r: Result) {
    r.Value? ==> Legit(src, k, r.view)
  }

  ghost predicate LegitOutcome(src: Sources, k: Key, o: Outcome) {
    o.Return? ==> LegitResult(src, k, o.result)
  }

  ghost predicate LegitCache(src: Sources, cache: map<Key, View>) {
    forall k :: k in cache ==> Legit(src, k, cache[k])
  }

  ghost predicate LegitNode(src: Sources, nd: Node) {
    LegitCache(src, nd.main) && LegitCache(src, nd.hot)
  }

  ghost predicate LegitOp(src: Sources, op: Op) {
    op.Set? || op.ServeSet? ==> Legit(src, op.key, op.view)
  }

  ghost predicate LegitFan(src: Sources, f: Fan) {
    && (forall p :: p in f.todo ==> LegitOp(src, p.msg))
    && (forall c :: c in f.out ==> LegitOp(src, f.out[c].msg))
  }

  ghost predicate LegitPc(src: Sources, op: Op, pc: Pc) {
    match pc
    case CountHit(_, v) => Legit(src, KeyOf(op), v)
    case PopHot(v) => Legit(src, KeyOf(op), v)
    case CountPeer(v) => Legit(src, KeyOf(op), v)
    case CountLocal(r) => LegitResult(src, KeyOf(op), r)
    case PopMain(v) => Legit(src, KeyOf(op), v)
    case Store(o) => LegitOutcome(src, KeyOf(op), o)
    case Signal(o) => LegitOutcome(src, KeyOf(op), o)
    case Delete(o) => LegitOutcome(src, KeyOf(op), o)
    case Ended(o) => LegitOutcome(src, KeyOf(op), o)
    case Acquire(j, _) => j.Write? ==> Legit(src, j.key, j.view)
    case First(j, _) => j.Write? ==> Legit(src, j.key, j.view)
    case Second(j, _) => j.Write? ==> Legit(src, j.key, j.view)
    case FanOut(f) => LegitFan(src, f)
    case _ => true
  }

  ghost predicate LegitTask(src: Sources, task: Task) {
    LegitOp(src, task.op) && LegitPc(src, task.op, task.pc)
  }

  ghost predicate Inv(s: State) {
    && (forall t {:trigger LegitTask(SourcesOf(s), s.tasks[t])} :: t in s.tasks ==> LegitTask(SourcesOf(s), s.tasks[t]))
    && (forall n {:trigger LegitNode(SourcesOf(s), s.nodes[n])} :: n in s.nodes ==> LegitNode(SourcesOf(s), s.nodes[n]))
  }

  // ---------- one move ----------

  // What the move takes in from elsewhere is legitimate: an answer, or the result of the call it joined.
  ghost predicate LegitInput(src: Sources, nd: Node, task: Task, inp: Input) {
    && (inp.Answer? && task.pc.AwaitPeer? ==> LegitResult(src, KeyOf(task.op), inp.result))
    && (task.pc.Wait? && HasKey(task.op) && task.pc.call in GroupOf(nd, task.op).calls
        && GroupOf(nd, task.op).calls[task.pc.call].done
        ==> LegitResult(src, KeyOf(task.op), GroupOf(nd, task.op).calls[task.pc.call].result))
  }

  ghost predicate LegitMove(src: Sources, m: Move)
    requires m.Move?
  {
    LegitNode(src, m.node) && LegitTask(src, m.task) && (m.spawn.Some? ==> LegitOp(src, m.spawn.value.op))
  }

  lemma NextIsLegit(src: Sources, nd: Node, t: Tid, task: Task, inp: Input, m: Move)
    requires m == Next(nd, t, task, inp) && m.Move?
    requires LegitNode(src, nd) && LegitTask(src, task) && LegitInput(src, nd, task, inp)
    requires inp.Load? && inp.out.Loaded? ==> (KeyOf(task.op), inp.out.view) in src
    ensures LegitMove(src, m)
  {
    if InDo(task.pc) {
      DoIsLegit(src, nd, t, task, m);
    } else if InLock(task.pc) {
      LockIsLegit(src, nd, t, task, m);
    } else if task.pc.FanOut? {
      FanIsLegit(src, nd, task, inp, m);
    } else if task.op.Get? {
      GetIsLegit(src, nd, task, inp, m);
    } else if task.op.Set? || task.op.Remove? {
      WriteIsLegit(src, nd, task, inp, m);
    } else if task.op.RemoveKeys? {
    } else {
    }
  }

  lemma DoIsLegit(src: Sources, nd: Node, t: Tid, task: Task, m: Move)
    requires HasKey(task.op) && InDo(task.pc) && m == NextFlight(nd, t, task) && m.Move?
    requires LegitNode(src, nd) && LegitTask(src, task) && LegitInput(src, nd, task, Go)
    ensures LegitMove(src, m)
  {
    assert m.node.main == nd.main && m.node.hot == nd.hot;
  }

  lemma LockIsLegit(src: Sources, nd: Node, t: Tid, task: Task, m: Move)
    requires InLock(task.pc) && m == Critical(nd, t, task) && m.Move?
    requires LegitNode(src, nd) && LegitTask(src, task)
    ensures LegitMove(src, m)
  {
  }

  lemma FanIsLegit(src: Sources, nd: Node, task: Task, inp: Input, m: Move)
    requires task.pc.FanOut? && m == NextFan(nd, task, inp) && m.Move?
    requires LegitNode(src, nd) && LegitTask(src, task)
    ensures LegitMove(src, m)
  {
    assert m.node == nd;
  }

  lemma GetIsLegit(src: Sources, nd: Node, task: Task, inp: Input, m: Move)
    requires task.op.Get? && Fits(task.pc, inp) && m == NextGet(nd, task, inp) && m.Move?
    requires LegitNode(src, nd) && LegitTask(src, task) && LegitInput(src, nd, task, inp)
    requires inp.Load? && inp.out.Loaded? ==> (task.op.key, inp.out.view) in src
    ensures LegitMove(src, m)
  {
    if task.pc.LookMain? || task.pc.LookHot? {
      LookIsLegit(src, nd, task, task.pc.LookMain?, task.pc.again, inp.now, m);
    } else {
      LoadIsLegit(src, nd, task, inp, m);
    }
  }

  lemma LookIsLegit(src: Sources, nd: Node, task: Task, inMain: bool, again: bool, now: Time, m: Move)
    requires task.op.Get? && m == Look(nd, task, inMain, again, now)
    requires LegitNode(src, nd) && LegitTask(src, task)
    ensures LegitMove(src, m)
  {
  }

  lemma LoadIsLegit(src: Sources, nd: Node, task: Task, inp: Input, m: Move)
    requires task.op.Get? && Fits(task.pc, inp) && m == NextGet(nd, task, inp) && m.Move?
    requires !task.pc.LookMain? && !task.pc.LookHot?
    requires LegitNode(src, nd) && LegitTask(src, task) && LegitInput(src, nd, task, inp)
    requires inp.Load? && inp.out.Loaded? ==> (task.op.key, inp.out.view) in src
    ensures LegitMove(src, m)
  {
    if task.pc.RunGetter? {
      assert inp.out.Loaded? ==> Legit(src, task.op.key, inp.out.view);
    } else if task.pc.PopHot? || task.pc.PopMain? {
      PopIsLegit(src, nd, task, inp, m);
    } else {
      assert m.node.main == nd.main && m.node.hot == nd.hot;
    }
  }

  lemma PopIsLegit(src: Sources, nd: Node, task: Task, inp: Input, m: Move)
    requires task.op.Get? && Fits(task.pc, inp) && m == NextGet(nd, task, inp) && m.Move?
    requires (task.pc.PopHot? || task.pc.PopMain?) && LegitNode(src, nd) && LegitTask(src, task)
    ensures LegitMove(src, m)
  {
  }

  lemma WriteIsLegit(src: Sources, nd: Node, task: Task, inp: Input, m: Move)
    requires (task.op.Set? || task.op.Remove?) && Fits(task.pc, inp) && m == NextWrite(nd, task, inp) && m.Move?
    requires LegitNode(src, nd) && LegitTask(src, task) && LegitInput(src, nd, task, inp)
    ensures LegitMove(src, m)
  {
    if task.op.Set? {
      LegitCarried(src, task.op.key, task.op.view);
    }
    assert LegitOp(src, Message(task.op));
    assert m.node == nd;
  }

  // ---------- the whole cluster ----------

  lemma Grows(src: Sources, src': Sources, k: Key, v: View)
    requires src <= src' && Legit(src, k, v)
    ensures Legit(src', k, v)
  {
  }

  lemma GrowsNode(src: Sources, src': Sources, nd: Node)
    requires src <= src' && LegitNode(src, nd)
    ensures LegitNode(src', nd)
  {
    forall k | k in nd.main ensures Legit(src', k, nd.main[k]) { Grows(src, src', k, nd.main[k]); }
    forall k | k in nd.hot ensures Legit(src', k, nd.hot[k]) { Grows(src, src', k, nd.hot[k]); }
  }

  lemma GrowsOp(src: Sources, src': Sources, op: Op)
    requires src <= src' && LegitOp(src, op)
    ensures LegitOp(src', op)
  {
  }

  lemma GrowsTask(src: Sources, src': Sources, task: Task)
    requires src <= src' && LegitTask(src, task)
    ensures LegitTask(src', task)
  {
    if task.pc.FanOut? {
      var f := task.pc.fan;
      forall p | p in f.todo ensures LegitOp(src', p.msg) { GrowsOp(src, src', p.msg); }
      forall c | c in f.out ensures LegitOp(src', f.out[c].msg) { GrowsOp(src, src', f.out[c].msg); }
    }
  }

  lemma SourcesGrow(s: State, step: Step)
    requires Enabled(s, step)
    ensures SourcesOf(s) <= SourcesOf(Apply(s, step))
  {
  }

  lemma LoadIsSource(s: State, t: Tid, inp: Input)
    requires Enabled(s, Run(t, inp)) && inp.Load? && inp.out.Loaded?
    ensures (KeyOf(s.tasks[t].op), inp.out.view) in SourcesOf(Apply(s, Run(t, inp)))
  {
    var s' := Apply(s, Run(t, inp));
    assert s.tasks[t].pc.RunGetter?;
    var r := LoadRecord(KeyOf(s.tasks[t].op), t, inp.out);
    assert s'.log == s.log + [r];
    assert r in s'.log;
  }

  lemma AnswerIsLegit(s: State, t: Tid, inp: Input)
    requires Inv(s) && Requests.Inv(s) && Enabled(s, Run(t, inp))
    requires inp.Answer? && s.tasks[t].pc.AwaitPeer?
    ensures LegitResult(SourcesOf(s), KeyOf(s.tasks[t].op), inp.result)
  {
    var c := inp.child;
    assert Requests.KidsOk(s.tasks, s.tasks[t]) && LegitTask(SourcesOf(s), s.tasks[c]);
    var o := s.tasks[c].pc.outcome;
    if o.Return? && o.result.Value? {
      LegitCarried(SourcesOf(s), KeyOf(s.tasks[t].op), o.result.view);
    }
  }

  lemma WaitIsLegit(s: State, t: Tid)
    requires Inv(s) && Flights.Inv(s) && t in s.tasks && s.tasks[t].pc.Wait?
    ensures var task := s.tasks[t];
      && task.node in s.nodes && HasKey(task.op) && task.pc.call in GroupOf(s.nodes[task.node], task.op).calls
      && var call := GroupOf(s.nodes[task.node], task.op).calls[task.pc.call];
         call.done ==> LegitResult(SourcesOf(s), KeyOf(task.op), call.result)
  {
    Flights.JoinedResult(s, t);
    assert LegitTask(SourcesOf(s), s.tasks[s.tasks[t].pc.call]);
  }

  lemma RunIsLegit(s: State, t: Tid, inp: Input, m: Move)
    requires Inv(s) && Flights.Inv(s) && Requests.Inv(s) && Enabled(s, Run(t, inp))
    requires m == Next(s.nodes[s.tasks[t].node], t, s.tasks[t], inp)
    ensures LegitMove(SourcesOf(Apply(s, Run(t, inp))), m)
  {
    var src, src' := SourcesOf(s), SourcesOf(Apply(s, Run(t, inp)));
    var task := s.tasks[t];
    var nd := s.nodes[task.node];
    SourcesGrow(s, Run(t, inp));
    GrowsNode(src, src', nd);
    GrowsTask(src, src', task);
    if inp.Answer? && task.pc.AwaitPeer? {
      AnswerIsLegit(s, t, inp);
      assert LegitResult(src', KeyOf(task.op), inp.result);
    }
    if task.pc.Wait? {
      WaitIsLegit(s, t);
    }
    if inp.Load? && inp.out.Loaded? {
      LoadIsSource(s, t, inp);
    }
    NextIsLegit(src', nd, t, task, inp, m);
  }

  lemma MovedIsLegit(s: State, t: Tid, m: Move, child: Option<Tid>, src': Sources)
    requires Inv(s) && Flights.SpawnOk(s, m, child) && t in s.tasks && s.tasks[t].node in s.nodes
    requires LegitMove(src', m) && SourcesOf(s) <= src' && src' == SourcesOf(Moved(s, t, m, child))
    ensures Inv(Moved(s, t, m, child))
  {
    var s' := Moved(s, t, m, child);
    forall u | u in s'.tasks
      ensures LegitTask(src', s'.tasks[u])
    {
      if u in s.tasks && u != t {
        GrowsTask(SourcesOf(s), src', s.tasks[u]);
      }
    }
    forall n | n in s'.nodes
      ensures LegitNode(src', s'.nodes[n])
    {
      if n != s.tasks[t].node {
        GrowsNode(SourcesOf(s), src', s.nodes[n]);
      }
    }
  }

  lemma QuietIsLegit(s: State, step: Step)
    requires Inv(s) && Enabled(s, step) && !step.Run?
    ensures Inv(Apply(s, step))
  {
    var s' := Apply(s, step);
    var src, src' := SourcesOf(s), SourcesOf(s');
    SourcesGrow(s, step);
    forall u | u in s'.tasks
      ensures LegitTask(src', s'.tasks[u])
    {
      if u in s.tasks {
        GrowsTask(src, src', s.tasks[u]);
      } else if step.op.Set? {
        assert (step.op.key, step.op.view) in src';
      }
    }
    forall n | n in s'.nodes
      ensures LegitNode(src', s'.nodes[n])
    {
      GrowsNode(src, src', s.nodes[n]);
    }
  }

  ghost predicate AllInv(s: State) {
    Inv(s) && Flights.Inv(s) && Requests.Inv(s)
  }

  lemma StepKeepsInv(s: State, step: Step)
    requires AllInv(s) && Enabled(s, step)
    ensures AllInv(Apply(s, step))
  {
    Flights.StepKeepsInv(s, step);
    Requests.StepKeepsInv(s, step);
    if step.Run? {
      var t := step.t;
      var m := Next(s.nodes[s.tasks[t].node], t, s.tasks[t], step.input);
      RunIsLegit(s, t, step.input, m);
      Flights.SpawnsFresh(s, t, step.input);
      SourcesGrow(s, step);
      MovedIsLegit(s, t, m, ChildOf(step.input), SourcesOf(Apply(s, step)));
    } else {
      QuietIsLegit(s, step);
    }
  }

  // ---------- the theorem ----------

  // A cluster that has just been started: no calls, empty caches.
  ghost predicate Cold(s: State) {
    Init(s) && forall n :: n in s.nodes ==> s.nodes[n].main == map[] && s.nodes[n].hot == map[]
  }

  lemma {:induction false} Invariant(ss: seq<State>, steps: seq<Step>, i: nat)
    requires IsRun(ss, steps) && Cold(ss[0]) && i < |ss|
    ensures AllInv(ss[i])
  {
    if i == 0 {
      Flights.InitInv(ss[0]);
    } else {
      Invariant(ss, steps, i - 1);
      StepKeepsInv(ss[i - 1], steps[i - 1]);
    }
  }

  // In every reachable state, whatever Get returned for k was loaded for k or written to k before.
  lemma GetReturnsSource(ss: seq<State>, steps: seq<Step>, i: nat, t: Tid)
    requires IsRun(ss, steps) && Cold(ss[0]) && i < |ss|
    requires t in ss[i].tasks && ss[i].tasks[t].op.Get?
    requires ss[i].tasks[t].pc.Ended? && ss[i].tasks[t].pc.outcome.Return? && ss[i].tasks[t].pc.outcome.result.Value?
    ensures Legit(SourcesOf(ss[i]), ss[i].tasks[t].op.key, ss[i].tasks[t].pc.outcome.result.view)
  {
    Invariant(ss, steps, i);
    assert LegitTask(SourcesOf(ss[i]), ss[i].tasks[t]);
  }

  // With a getter that is a function of the key, a Get of k returns the getter's bytes for k, or
  // the bytes of some earlier Set of k: never the value of another key.
  lemma CacheTransparency(ss: seq<State>, steps: seq<Step>, i: nat, t: Tid, getter: Key -> seq<Byte>)
    requires IsRun(ss, steps) && Cold(ss[0]) && i < |ss|
    requires forall r :: r in ss[i].log && r.out.Loaded? ==> r.out.view.bytes == getter(r.key)
    requires t in ss[i].tasks && ss[i].tasks[t].op.Get?
    requires ss[i].tasks[t].pc.Ended? && ss[i].tasks[t].pc.outcome.Return? && ss[i].tasks[t].pc.outcome.result.Value?
    ensures var k, v := ss[i].tasks[t].op.key, ss[i].tasks[t].pc.outcome.result.view;
      v.bytes == getter(k) || exists w :: (k, w) in ss[i].written && w.bytes == v.bytes
  {
    GetReturnsSource(ss, steps, i, t);
    var k, v := ss[i].tasks[t].op.key, ss[i].tasks[t].pc.outcome.result.view;
    var w :| (k, w) in SourcesOf(ss[i]) && (v == w || v == Carry(w));
  }

  // If every expiry fits the wire stamp, the expiry comes through unchanged as well: on the hit,
  // leader, follower and peer paths alike, a copy expires exactly when the original does.
  lemma ExpiryTransparency(ss: seq<State>, steps: seq<Step>, i: nat, t: Tid)
    requires IsRun(ss, steps) && Cold(ss[0]) && i < |ss|
    requires forall k, w :: (k, w) in SourcesOf(ss[i]) && w.expire.Some? ==>
      Stampable(w.expire.value) && w.expire.value != Time(0, 0)
    requires t in ss[i].tasks && ss[i].tasks[t].op.Get?
    requires ss[i].tasks[t].pc.Ended? && ss[i].tasks[t].pc.outcome.Return? && ss[i].tasks[t].pc.outcome.result.Value?
    ensures (ss[i].tasks[t].op.key, ss[i].tasks[t].pc.outcome.result.view) in SourcesOf(ss[i])
  {
    GetReturnsSource(ss, steps, i, t);
    var k, v := ss[i].tasks[t].op.key, ss[i].tasks[t].pc.outcome.result.view;
    var w :| (k, w) in SourcesOf(ss[i]) && (v == w || v == Carry(w));
    CarryExact(w);
  }
}
