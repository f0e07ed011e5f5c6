// How every operation ends, from what happened to it: which answers and losses it met, whether its
// context was cancelled, and what its getter returned.
module Outcomes {
  import opened Views
  import opened Wire
  import opened Protocol
  import Flights
  import Hits
  import Ring
  import Runs

  // What happened to a task so far. named: the other node that the ring named for its key; owned: the
  // ring named somebody; asked: what became of the request to that node, a loss being an error; cut:
  // the context was found cancelled; told: what became of the requests of the fan-out; orphan: a Set
  // found peers to tell although the ring had named nobody.
  datatype Past = Past(named: Option<Addr>, owned: bool, asked: Option<Result>, cut: bool, told: seq<Result>,
                       orphan: bool)

  const NOTHING := Past(None, false, None, false, [], false)

  // The ring names another node for the key.
  function Named(ring: Ring.Ring, k: Key): (a: Option<Addr>) {
    var p := Ring.Pick(ring, k);
    if p.Some? && !p.value.isSelf then Some(p.value.address) else None
  }

  // One action of the task at this point, with this decision of the environment.
  function Note(h: Past, nd: Node, op: Op, pc: Pc, inp: Input): (h': Past) {
    match inp
    case Lose(e) => h.(asked := Some(Fail(e)))
    case Ctx(live) => h.(cut := h.cut || !live)
    case Answer(_, r) => if pc.FanOut? then h.(told := h.told + [r]) else h.(asked := Some(r))
    case Undelivered(_) => h.(told := h.told + [Fail(Opaque)])
    case Unanswered(_) => h.(told := h.told + [Fail(Opaque)])
    case Go =>
      if HasKey(op) && (pc.Pick? || pc.PickOwner?)
      then h.(named := Named(nd.ring, op.key), owned := Ring.Pick(nd.ring, op.key).Some?)
      else if pc.ListPeers? then h.(orphan := op.Set? && !h.owned && Others(nd) != {})
      else h
    case _ => h
  }

  predicate Failed(r: Option<Result>) {
    r.Some? && r.value.Fail?
  }

  predicate AnyFailed(rs: seq<Result>) {
    exists i :: 0 <= i < |rs| && rs[i].Fail?
  }

  lemma OneMore(rs: seq<Result>, r: Result)
    ensures AnyFailed(rs + [r]) <==> AnyFailed(rs) || r.Fail?
  {
    if AnyFailed(rs) {
      var i :| 0 <= i < |rs| && rs[i].Fail?;
      assert (rs + [r])[i].Fail?;
    }
    assert (rs + [r])[|rs|] == r;
  }

  // ---------- how an operation ends ----------

  // The task loads the value itself: the key is its own, or the request failed in a way that says
  // nothing about the value, and the caller still waits.
  predicate LoadsItself(h: Past) {
    h.asked.None? || (h.asked.value.Fail? && !Final(h.asked.value.error) && !h.cut)
  }

  function GetterOutcome(out: GetterOut): (o: Outcome) {
    match out
    case Loaded(v) => Return(Value(v))
    case LoadError(e) => Return(Fail(e))
    case LoadPanic => Panic
  }

  // A Get that led its flight and missed: recs are the runs of its getter.
  predicate GetEnd(o: Outcome, recs: seq<GetterOut>, h: Past) {
    && (h.asked.Some? <==> h.named.Some?)
    && if LoadsItself(h) then |recs| == 1 && o == GetterOutcome(recs[0])
       else recs == [] && o == Return(h.asked.value)
  }

  // A Set or Remove that joined nobody.
  predicate WriteEnd(op: Op, caching: bool, o: Outcome, h: Past)
    requires op.Set? || op.Remove?
  {
    if op.Set? && op.key == "" then o == Return(Fail(EmptyKey))
    else if op.Set? && !caching then o == Return(Done)
    else
      && (h.asked.Some? <==> h.named.Some?)
      && o == (if Failed(h.asked) then Return(h.asked.value)
               else if h.orphan then Panic
               else if op.Remove? && AnyFailed(h.told) then Return(Fail(Many))
               else Return(Done))
  }

  // ---------- what holds on the way ----------

  predicate GetLaw(op: Op, pc: Pc, dedup: bool, recs: seq<GetterOut>, h: Past)
    requires op.Get?
  {
    && (op.nilDest ==> !dedup && (pc.Begin? || pc == Ended(Return(Fail(NilSink)))))
    && match pc
       case CallPeer(p) => dedup && recs == [] && h == NOTHING.(named := Some(p), owned := true)
       case AwaitPeer(p, _) => dedup && recs == [] && h == NOTHING.(named := Some(p), owned := true)
       case PopHot(v) => dedup && recs == [] && h.named.Some? && h.asked == Some(Value(v))
       case CountPeer(v) => dedup && recs == [] && h.named.Some? && h.asked == Some(Value(v))
       case PeerFailed(e) => dedup && recs == [] && h.named.Some? && h.asked == Some(Fail(e)) && !h.cut
       case RunGetter => dedup && recs == [] && (h.asked.Some? <==> h.named.Some?) && LoadsItself(h)
       case CountLocal(r) => dedup && GetEnd(Return(r), recs, h) && LoadsItself(h)
       case PopMain(v) => dedup && GetEnd(Return(Value(v)), recs, h) && LoadsItself(h)
       case Store(o) => if dedup then GetEnd(o, recs, h) else recs == [] && h == NOTHING
       case Signal(o) => if dedup then GetEnd(o, recs, h) else recs == [] && h == NOTHING
       case Delete(o) => if dedup then GetEnd(o, recs, h) else recs == [] && h == NOTHING
       case Ended(o) => if dedup then GetEnd(o, recs, h) else recs == [] && h == NOTHING
       case Pick => dedup && recs == [] && h == NOTHING
       case _ => !dedup && recs == [] && h == NOTHING
  }

  // The owner, if there was one to ask, has answered without an error.
  predicate Asked(h: Past) {
    (h.asked.Some? <==> h.named.Some?) && (h.named.Some? ==> h.owned) && !Failed(h.asked) && h.told == []
  }

  predicate WriteLaw(op: Op, pc: Pc, caching: bool, joined: bool, h: Past)
    requires op.Set? || op.Remove?
  {
    && (joined ==> pc.Wait? || pc.Ended?) && (h.orphan ==> op.Set?)
    && (!pc.Begin? && !pc.Ended? && op.Set? ==> op.key != "" && caching)
    && match pc
       case Wait(_) => joined && h == NOTHING
       case CallOwner(c) => h == NOTHING.(named := Some(c.address), owned := true)
       case AwaitOwner(c, _) => h == NOTHING.(named := Some(c.address), owned := true)
       case Acquire(_, th) => Asked(h) && !h.orphan && (th.ListFor? ==> (th.owner.Some? <==> h.owned))
       case First(_, th) => Asked(h) && !h.orphan && (th.ListFor? ==> (th.owner.Some? <==> h.owned))
       case Second(_, th) => Asked(h) && !h.orphan && (th.ListFor? ==> (th.owner.Some? <==> h.owned))
       case Release(_, th) => Asked(h) && !h.orphan && (th.ListFor? ==> (th.owner.Some? <==> h.owned))
       case ListPeers(owner) => Asked(h) && !h.orphan && (owner.Some? <==> h.owned)
       case FanOut(f) => Asked(h.(told := [])) && !h.orphan && (f.failed <==> AnyFailed(h.told))
       case Store(o) => WriteEnd(op, caching, o, h)
       case Signal(o) => WriteEnd(op, caching, o, h)
       case Delete(o) => WriteEnd(op, caching, o, h)
       case Ended(o) => !joined ==> WriteEnd(op, caching, o, h)
       case _ => h == NOTHING
  }

  // RemoveKeys, and the requests that peers serve.
  predicate RestLaw(op: Op, pc: Pc, h: Past) {
    match pc
    case FanOut(f) => op.RemoveKeys? && h.asked.None? && (f.failed <==> AnyFailed(h.told))
    case Ended(o) => h.asked.None? && o == Return(if op.RemoveKeys? && AnyFailed(h.told) then Fail(Many) else Done)
    case _ => h == NOTHING
  }

  predicate Law(task: Task, caching: bool, recs: seq<GetterOut>, h: Past) {
    if task.op.Get? then GetLaw(task.op, task.pc, task.trail.dedup, recs, h)
    else if task.op.Set? || task.op.Remove? then WriteLaw(task.op, task.pc, caching, task.trail.joined.Some?, h)
    else RestLaw(task.op, task.pc, h)
  }

  function Recorded(recs: seq<GetterOut>, load: Option<GetterOut>): (recs': seq<GetterOut>) {
    if load.Some? then recs + [load.value] else recs
  }

  // ---------- one action ----------

  lemma NextKeepsLaw(nd: Node, t: Tid, task: Task, inp: Input, m: Move, recs: seq<GetterOut>, h: Past)
    requires m == Next(nd, t, task, inp) && m.Move? && Flights.Shape(task.op, task.pc)
    requires Flights.LockFits(task.op, task.pc) && Law(task, nd.caching, recs, h)
    ensures m.task.op == task.op
    ensures Law(m.task, nd.caching, Recorded(recs, m.load), Note(h, nd, task.op, task.pc, inp))
  {
    if InDo(task.pc) {
      DoKeepsLaw(nd, t, task, inp, m, recs, h);
    } else if InLock(task.pc) {
      LockKeepsLaw(nd, t, task, inp, m, recs, h);
    } else if task.pc.FanOut? {
      FanKeepsLaw(nd, task, inp, m, recs, h);
    } else if task.op.Get? {
      GetKeepsLaw(nd, task, inp, m, recs, h);
    } else if task.op.Set? || task.op.Remove? {
      WriteKeepsLaw(nd, task, inp, m, recs, h);
    } else {
      RestKeepsLaw(nd, t, task, inp, m, recs, h);
    }
  }

  lemma DoKeepsLaw(nd: Node, t: Tid, task: Task, inp: Input, m: Move, recs: seq<GetterOut>, h: Past)
    requires HasKey(task.op) && InDo(task.pc) && inp == Go && m == NextFlight(nd, t, task) && m.Move?
    requires Flights.Shape(task.op, task.pc) && Law(task, nd.caching, recs, h)
    ensures m.task.op == task.op
    ensures Law(m.task, nd.caching, Recorded(recs, m.load), Note(h, nd, task.op, task.pc, inp))
  {
  }

  lemma LockKeepsLaw(nd: Node, t: Tid, task: Task, inp: Input, m: Move, recs: seq<GetterOut>, h: Past)
    requires InLock(task.pc) && inp == Go && m == Critical(nd, t, task) && m.Move?
    requires Flights.LockFits(task.op, task.pc) && Law(task, nd.caching, recs, h)
    ensures m.task.op == task.op
    ensures Law(m.task, nd.caching, Recorded(recs, m.load), Note(h, nd, task.op, task.pc, inp))
  {
  }

  lemma FanKeepsLaw(nd: Node, task: Task, inp: Input, m: Move, recs: seq<GetterOut>, h: Past)
    requires task.pc.FanOut? && Fits(task.pc, inp) && m == NextFan(nd, task, inp) && m.Move?
    requires Flights.Shape(task.op, task.pc) && Law(task, nd.caching, recs, h)
    ensures m.task.op == task.op
    ensures Law(m.task, nd.caching, Recorded(recs, m.load), Note(h, nd, task.op, task.pc, inp))
  {
    if inp.Answer? {
      OneMore(h.told, inp.result);
    } else {
      OneMore(h.told, Fail(Opaque));
    }
  }

  lemma GetKeepsLaw(nd: Node, task: Task, inp: Input, m: Move, recs: seq<GetterOut>, h: Past)
    requires task.op.Get? && Fits(task.pc, inp) && m == NextGet(nd, task, inp) && m.Move?
    requires Flights.Shape(task.op, task.pc) && Law(task, nd.caching, recs, h)
    ensures m.task.op == task.op
    ensures Law(m.task, nd.caching, Recorded(recs, m.load), Note(h, nd, task.op, task.pc, inp))
  {
    if task.pc.LookMain? || task.pc.LookHot? {
      LookKeepsLaw(nd, task, inp, m, recs, h);
    } else if task.pc.Pick? || Hits.AtPeer(task.pc) {
      PeerKeepsLaw(nd, task, inp, m, recs, h);
    } else if task.pc.RunGetter? {
      GetterKeepsLaw(nd, task, inp, m, recs, h);
    } else if task.pc.CountLocal? || task.pc.PopMain? {
      LocalKeepsLaw(nd, task, inp, m, recs, h);
    } else {
      EarlyKeepsLaw(nd, task, inp, m, recs, h);
    }
  }

  lemma LookKeepsLaw(nd: Node, task: Task, inp: Input, m: Move, recs: seq<GetterOut>, h: Past)
    requires task.op.Get? && (task.pc.LookMain? || task.pc.LookHot?) && inp.At?
    requires m == Look(nd, task, task.pc.LookMain?, task.pc.again, inp.now)
    requires Flights.Shape(task.op, task.pc) && Law(task, nd.caching, recs, h)
    ensures m.task.op == task.op
    ensures Law(m.task, nd.caching, Recorded(recs, m.load), Note(h, nd, task.op, task.pc, inp))
  {
  }

  lemma PeerKeepsLaw(nd: Node, task: Task, inp: Input, m: Move, recs: seq<GetterOut>, h: Past)
    requires task.op.Get? && (task.pc.Pick? || Hits.AtPeer(task.pc))
    requires Fits(task.pc, inp) && m == NextGet(nd, task, inp) && m.Move? && Law(task, nd.caching, recs, h)
    requires Flights.Shape(task.op, task.pc)
    ensures m.task.op == task.op
    ensures Law(m.task, nd.caching, Recorded(recs, m.load), Note(h, nd, task.op, task.pc, inp))
  {
  }

  lemma GetterKeepsLaw(nd: Node, task: Task, inp: Input, m: Move, recs: seq<GetterOut>, h: Past)
    requires task.op.Get? && task.pc.RunGetter?
    requires Fits(task.pc, inp) && m == NextGet(nd, task, inp) && m.Move? && Law(task, nd.caching, recs, h)
    ensures m.task.op == task.op
    ensures Law(m.task, nd.caching, Recorded(recs, m.load), Note(h, nd, task.op, task.pc, inp))
  {
    assert Recorded(recs, m.load) == [inp.out];
  }

  lemma LocalKeepsLaw(nd: Node, task: Task, inp: Input, m: Move, recs: seq<GetterOut>, h: Past)
    requires task.op.Get? && (task.pc.CountLocal? || task.pc.PopMain?)
    requires Fits(task.pc, inp) && m == NextGet(nd, task, inp) && m.Move? && Law(task, nd.caching, recs, h)
    ensures m.task.op == task.op
    ensures Law(m.task, nd.caching, Recorded(recs, m.load), Note(h, nd, task.op, task.pc, inp))
  {
    LocalMove(nd, task, inp, m);
    assert Note(h, nd, task.op, task.pc, inp) == h && Recorded(recs, m.load) == recs;
  }

  // The result of the getter is counted, saved if it is a value, and returned.
  lemma LocalMove(nd: Node, task: Task, inp: Input, m: Move)
    requires task.op.Get? && (task.pc.CountLocal? || task.pc.PopMain?)
    requires Fits(task.pc, inp) && m == NextGet(nd, task, inp) && m.Move?
    ensures inp == Go && m.load.None? && m.task.op == task.op && m.task.trail.dedup == task.trail.dedup
    ensures m.task.pc == if task.pc.PopMain? then Store(Return(Value(task.pc.view)))
                         else if task.pc.result.Value? then PopMain(task.pc.result.view)
                         else Store(Return(task.pc.result))
  {
  }

  lemma EarlyKeepsLaw(nd: Node, task: Task, inp: Input, m: Move, recs: seq<GetterOut>, h: Past)
    requires task.op.Get? && (task.pc.Begin? || task.pc.CountHit? || task.pc.CountLoad? || task.pc.CountDedup?)
    requires Fits(task.pc, inp) && m == NextGet(nd, task, inp) && m.Move? && Law(task, nd.caching, recs, h)
    requires Flights.Shape(task.op, task.pc)
    ensures m.task.op == task.op
    ensures Law(m.task, nd.caching, Recorded(recs, m.load), Note(h, nd, task.op, task.pc, inp))
  {
  }

  lemma WriteKeepsLaw(nd: Node, task: Task, inp: Input, m: Move, recs: seq<GetterOut>, h: Past)
    requires (task.op.Set? || task.op.Remove?) && Fits(task.pc, inp) && m == NextWrite(nd, task, inp) && m.Move?
    requires Law(task, nd.caching, recs, h)
    ensures m.task.op == task.op
    ensures Law(m.task, nd.caching, Recorded(recs, m.load), Note(h, nd, task.op, task.pc, inp))
  {
    if task.pc.PickOwner? || task.pc.AwaitOwner? {
      OwnerKeepsLaw(nd, task, inp, m, recs, h);
    }
  }

  lemma OwnerKeepsLaw(nd: Node, task: Task, inp: Input, m: Move, recs: seq<GetterOut>, h: Past)
    requires (task.op.Set? || task.op.Remove?) && Fits(task.pc, inp) && m == NextWrite(nd, task, inp) && m.Move?
    requires Law(task, nd.caching, recs, h) && (task.pc.PickOwner? || task.pc.AwaitOwner?)
    ensures m.task.op == task.op
    ensures Law(m.task, nd.caching, Recorded(recs, m.load), Note(h, nd, task.op, task.pc, inp))
  {
  }

  lemma RestKeepsLaw(nd: Node, t: Tid, task: Task, inp: Input, m: Move, recs: seq<GetterOut>, h: Past)
    requires m == Next(nd, t, task, inp) && m.Move? && Law(task, nd.caching, recs, h)
    requires !task.op.Get? && !task.op.Set? && !task.op.Remove?
    requires !InDo(task.pc) && !InLock(task.pc) && !task.pc.FanOut?
    ensures m.task.op == task.op
    ensures Law(m.task, nd.caching, Recorded(recs, m.load), Note(h, nd, task.op, task.pc, inp))
  {
  }

  // ---------- whole runs ----------

  // What the getter returned to task t.
  ghost function Records(log: seq<LoadRecord>, t: Tid): (recs: seq<GetterOut>) {
    if log == [] then []
    else
      var last := log[|log| - 1];
      Records(log[..|log| - 1], t) + if last.task == t then [last.out] else []
  }

  // What happened to task t in the first i steps.
  ghost function PastOf(ss: seq<State>, steps: seq<Step>, i: nat, t: Tid): (h: Past)
    requires IsRun(ss, steps) && i < |ss|
  {
    if i == 0 then NOTHING
    else NoteStep(PastOf(ss, steps, i - 1, t), ss[i - 1], steps[i - 1], t)
  }

  lemma PastStep(ss: seq<State>, steps: seq<Step>, i: nat, t: Tid)
    requires IsRun(ss, steps) && i < |steps|
    ensures PastOf(ss, steps, i + 1, t) == NoteStep(PastOf(ss, steps, i, t), ss[i], steps[i], t)
  {
  }

  ghost function NoteStep(h: Past, s: State, step: Step, t: Tid): (h': Past)
    requires Enabled(s, step)
  {
    if step.Run? && step.t == t then Note(h, s.nodes[s.tasks[t].node], s.tasks[t].op, s.tasks[t].pc, step.input) else h
  }

  ghost predicate Known(s: State, t: Tid, recs: seq<GetterOut>, h: Past) {
    if t in s.tasks then s.tasks[t].node in s.nodes && Law(s.tasks[t], s.nodes[s.tasks[t].node].caching, recs, h)
    else recs == [] && h == NOTHING
  }

  // The log after a move of task u.
  lemma LoggedBy(s: State, u: Tid, m: Move, child: Option<Tid>, t: Tid)
    requires u in s.tasks && m.Move? && (m.spawn.Some? ==> child.Some?)
    ensures Records(Moved(s, u, m, child).log, t)
      == if u == t then Recorded(Records(s.log, t), m.load) else Records(s.log, t)
  {
    if m.load.Some? {
      var r := LoadRecord(KeyOf(s.tasks[u].op), u, m.load.value);
      assert (s.log + [r])[..|s.log|] == s.log;
    }
  }

  lemma MovedKnown(s: State, u: Tid, m: Move, child: Option<Tid>, t: Tid, h: Past, h': Past)
    requires u in s.tasks && s.tasks[u].node in s.nodes && Flights.SpawnOk(s, m, child)
    requires m.node.caching == s.nodes[s.tasks[u].node].caching && m.task.node == s.tasks[u].node
    requires Known(s, t, Records(s.log, t), h)
    requires if u == t then Law(m.task, m.node.caching, Recorded(Records(s.log, t), m.load), h') else h' == h
    ensures Known(Moved(s, u, m, child), t, Records(Moved(s, u, m, child).log, t), h')
  {
    LoggedBy(s, u, m, child, t);
    if t !in s.tasks && m.spawn.Some? && child.value == t {
      FreshIsLawful(m.spawn.value);
    }
  }

  lemma FreshIsLawful(task: Task)
    requires task.pc.Begin? && task.trail == FRESH
    ensures Law(task, true, [], NOTHING) && Law(task, false, [], NOTHING)
  {
  }

  lemma RunKnown(s: State, u: Tid, inp: Input, t: Tid, h: Past)
    requires Flights.Inv(s) && Enabled(s, Run(u, inp)) && Known(s, t, Records(s.log, t), h)
    ensures Known(Apply(s, Run(u, inp)), t, Records(Apply(s, Run(u, inp)).log, t), NoteStep(h, s, Run(u, inp), t))
  {
    var nd, task := s.nodes[s.tasks[u].node], s.tasks[u];
    var m := Next(nd, u, task, inp);
    assert Flights.TaskOk(s, u);
    Flights.RunIsFlightMove(s, u, inp, m);
    Runs.CachingStays(nd, u, task, inp, m);
    if u == t {
      NextKeepsLaw(nd, t, task, inp, m, Records(s.log, t), h);
    }
    MovedKnown(s, u, m, ChildOf(inp), t, h, NoteStep(h, s, Run(u, inp), t));
  }

  lemma QuietKnown(s: State, step: Step, t: Tid, h: Past)
    requires Enabled(s, step) && !step.Run? && Known(s, t, Records(s.log, t), h)
    ensures Known(Apply(s, step), t, Records(Apply(s, step).log, t), h)
  {
  }

  lemma {:induction false} LawHolds(ss: seq<State>, steps: seq<Step>, i: nat, t: Tid)
    requires IsRun(ss, steps) && Init(ss[0]) && i < |ss|
    ensures Known(ss[i], t, Records(ss[i].log, t), PastOf(ss, steps, i, t))
  {
    if i > 0 {
      LawHolds(ss, steps, i - 1, t);
      Flights.InitInv(ss[0]);
      Flights.RunKeepsInv(ss, steps, i - 1);
      var s, step, h := ss[i - 1], steps[i - 1], PastOf(ss, steps, i - 1, t);
      if step.Run? {
        RunKnown(s, step.t, step.input, t, h);
      } else {
        QuietKnown(s, step, t, h);
      }
    }
  }

  // ---------- what happened, read off the steps ----------

  // A request was lost, not delivered, not answered, or answered with an error.
  predicate Bad(inp: Input) {
    inp.Lose? || inp.Undelivered? || inp.Unanswered? || (inp.Answer? && inp.result.Fail?)
  }

  // Step j is such an action of task t, in its fan-out or before it.
  ghost predicate TroubleAt(ss: seq<State>, steps: seq<Step>, j: nat, t: Tid, fan: bool) {
    && j < |steps| && j < |ss| && steps[j].Run? && steps[j].t == t && t in ss[j].tasks
    && ss[j].tasks[t].pc.FanOut? == fan && Bad(steps[j].input)
  }

  ghost predicate Troubled(ss: seq<State>, steps: seq<Step>, i: nat, t: Tid, fan: bool) {
    exists j: nat :: j < i && TroubleAt(ss, steps, j, t, fan)
  }

  // In the first i steps task t met with this decision of the environment.
  ghost predicate Took(steps: seq<Step>, i: nat, t: Tid, inp: Input) {
    exists j :: 0 <= j < i && j < |steps| && steps[j] == Run(t, inp)
  }

  lemma OneStepTrouble(ss: seq<State>, steps: seq<Step>, i: nat, t: Tid, fan: bool)
    ensures Troubled(ss, steps, i + 1, t, fan) <==> Troubled(ss, steps, i, t, fan) || TroubleAt(ss, steps, i, t, fan)
  {
  }

  // A task that is about to take the answer of its peer or owner, or to lose it, has not had one.
  lemma NotAskedYet(task: Task, caching: bool, recs: seq<GetterOut>, h: Past, inp: Input)
    requires Law(task, caching, recs, h) && Fits(task.pc, inp) && !task.pc.FanOut? && (inp.Lose? || inp.Answer?)
    ensures h.asked.None?
  {
  }

  lemma {:induction false} TroubleExactly(ss: seq<State>, steps: seq<Step>, i: nat, t: Tid)
    requires IsRun(ss, steps) && Init(ss[0]) && i < |ss|
    ensures Failed(PastOf(ss, steps, i, t).asked) <==> Troubled(ss, steps, i, t, false)
    ensures AnyFailed(PastOf(ss, steps, i, t).told) <==> Troubled(ss, steps, i, t, true)
  {
    if i > 0 {
      TroubleExactly(ss, steps, i - 1, t);
      LawHolds(ss, steps, i - 1, t);
      OneStepTrouble(ss, steps, i - 1, t, false);
      OneStepTrouble(ss, steps, i - 1, t, true);
      if steps[i - 1].Run? && steps[i - 1].t == t {
        StepTrouble(ss, steps, i - 1, t, PastOf(ss, steps, i - 1, t));
      }
    }
  }

  // The same for one action.
  lemma NoteTrouble(h: Past, nd: Node, op: Op, pc: Pc, inp: Input)
    requires Fits(pc, inp) && (!pc.FanOut? && (inp.Lose? || inp.Answer?) ==> h.asked.None?)
    ensures var h' := Note(h, nd, op, pc, inp);
      && (Failed(h'.asked) <==> Failed(h.asked) || (!pc.FanOut? && Bad(inp)))
      && (AnyFailed(h'.told) <==> AnyFailed(h.told) || (pc.FanOut? && Bad(inp)))
  {
    OneMore(h.told, if inp.Answer? then inp.result else Fail(Opaque));
  }

  lemma StepTrouble(ss: seq<State>, steps: seq<Step>, i: nat, t: Tid, h: Past)
    requires IsRun(ss, steps) && i < |steps| && steps[i].Run? && steps[i].t == t
    requires Known(ss[i], t, Records(ss[i].log, t), h)
    ensures var h' := NoteStep(h, ss[i], steps[i], t);
      && (Failed(h'.asked) <==> Failed(h.asked) || TroubleAt(ss, steps, i, t, false))
      && (AnyFailed(h'.told) <==> AnyFailed(h.told) || TroubleAt(ss, steps, i, t, true))
  {
    var task, inp := ss[i].tasks[t], steps[i].input;
    var nd := ss[i].nodes[task.node];
    if !task.pc.FanOut? && (inp.Lose? || inp.Answer?) {
      NotAskedYet(task, nd.caching, Records(ss[i].log, t), h, inp);
    }
    NoteTrouble(h, nd, task.op, task.pc, inp);
  }

  lemma OneStepTook(steps: seq<Step>, i: nat, t: Tid, inp: Input)
    requires i < |steps|
    ensures Took(steps, i + 1, t, inp) <==> Took(steps, i, t, inp) || steps[i] == Run(t, inp)
  {
  }

  lemma {:induction false} CutExactly(ss: seq<State>, steps: seq<Step>, i: nat, t: Tid)
    requires IsRun(ss, steps) && i < |ss|
    ensures PastOf(ss, steps, i, t).cut <==> Took(steps, i, t, Ctx(false))
  {
    if i > 0 {
      CutExactly(ss, steps, i - 1, t);
      OneStepTook(steps, i - 1, t, Ctx(false));
      StepCut(ss[i - 1], steps[i - 1], t, PastOf(ss, steps, i - 1, t));
    }
  }

  lemma StepCut(s: State, step: Step, t: Tid, h: Past)
    requires Enabled(s, step)
    ensures NoteStep(h, s, step, t).cut <==> h.cut || step == Run(t, Ctx(false))
  {
  }

  // Step j is the one in which task t took this answer of its peer or owner, or lost it.
  ghost predicate AskedAt(ss: seq<State>, steps: seq<Step>, j: nat, t: Tid, r: Result) {
    && j < |steps| && j < |ss| && steps[j].Run? && steps[j].t == t && t in ss[j].tasks
    && match steps[j].input
       case Lose(e) => r == Fail(e)
       case Answer(c, a) =>
         && !ss[j].tasks[t].pc.FanOut? && r == a
         && c in ss[j].tasks && ss[j].tasks[c].pc.Ended? && a == OverWire(ss[j].tasks[c].pc.outcome)
       case _ => false
  }

  ghost predicate AskedFor(ss: seq<State>, steps: seq<Step>, i: nat, t: Tid, r: Result) {
    exists j: nat :: j < i && AskedAt(ss, steps, j, t, r)
  }

  lemma OneStepAsked(ss: seq<State>, steps: seq<Step>, i: nat, t: Tid, r: Result)
    ensures AskedFor(ss, steps, i + 1, t, r) <==> AskedFor(ss, steps, i, t, r) || AskedAt(ss, steps, i, t, r)
  {
  }

  lemma {:induction false} AskedExactly(ss: seq<State>, steps: seq<Step>, i: nat, t: Tid, r: Result)
    requires IsRun(ss, steps) && Init(ss[0]) && i < |ss|
    ensures PastOf(ss, steps, i, t).asked == Some(r) <==> AskedFor(ss, steps, i, t, r)
  {
    if i > 0 {
      AskedExactly(ss, steps, i - 1, t, r);
      OneStepAsked(ss, steps, i - 1, t, r);
      AskedNext(ss, steps, i - 1, t, r);
    }
  }

  lemma AskedNext(ss: seq<State>, steps: seq<Step>, i: nat, t: Tid, r: Result)
    requires IsRun(ss, steps) && Init(ss[0]) && i < |steps|
    ensures PastOf(ss, steps, i + 1, t).asked == Some(r)
       <==> PastOf(ss, steps, i, t).asked == Some(r) || AskedAt(ss, steps, i, t, r)
  {
    LawHolds(ss, steps, i, t);
    PastStep(ss, steps, i, t);
    StepAsked(ss, steps, i, t, r, PastOf(ss, steps, i, t));
  }

  lemma AskedKnown(ss: seq<State>, steps: seq<Step>, i: nat, t: Tid)
    requires IsRun(ss, steps) && Init(ss[0]) && i < |ss|
    ensures var asked := PastOf(ss, steps, i, t).asked;
      && (forall r :: AskedFor(ss, steps, i, t, r) ==> asked == Some(r))
      && (asked.Some? ==> AskedFor(ss, steps, i, t, asked.value))
  {
    forall r
      ensures PastOf(ss, steps, i, t).asked == Some(r) <==> AskedFor(ss, steps, i, t, r)
    {
      AskedExactly(ss, steps, i, t, r);
    }
  }

  lemma StepAsked(ss: seq<State>, steps: seq<Step>, i: nat, t: Tid, r: Result, h: Past)
    requires IsRun(ss, steps) && i < |steps| && Known(ss[i], t, Records(ss[i].log, t), h)
    ensures NoteStep(h, ss[i], steps[i], t).asked == Some(r) <==> h.asked == Some(r) || AskedAt(ss, steps, i, t, r)
  {
    if steps[i].Run? && steps[i].t == t {
      var task, inp := ss[i].tasks[t], steps[i].input;
      if !task.pc.FanOut? && (inp.Lose? || inp.Answer?) {
        NotAskedYet(task, ss[i].nodes[task.node].caching, Records(ss[i].log, t), h, inp);
      }
    }
  }

  // ---------- the laws ----------

  // The error says nothing about the value, so the caller may try its own getter.
  predicate Inconclusive(r: Result) {
    r.Fail? && r.error != Canceled && r.error != NotFound && r.error != RemoteCall
  }

  lemma GetEndKnown(ss: seq<State>, steps: seq<Step>, i: nat, t: Tid)
    requires IsRun(ss, steps) && Init(ss[0]) && i < |ss| && t in ss[i].tasks
    requires ss[i].tasks[t].op.Get? && ss[i].tasks[t].pc.Ended? && ss[i].tasks[t].trail.dedup
    ensures GetEnd(ss[i].tasks[t].pc.outcome, Records(ss[i].log, t), PastOf(ss, steps, i, t))
  {
    LawHolds(ss, steps, i, t);
  }

  lemma WriteEndOf(s: State, t: Tid, recs: seq<GetterOut>, h: Past)
    requires EndedAlone(s, t) && (s.tasks[t].op.Set? || s.tasks[t].op.Remove?) && Known(s, t, recs, h)
    ensures WriteEnd(s.tasks[t].op, s.nodes[s.tasks[t].node].caching, s.tasks[t].pc.outcome, h)
    ensures h.orphan ==> s.tasks[t].op.Set?
  {
  }

  lemma WriteEndKnown(ss: seq<State>, steps: seq<Step>, i: nat, t: Tid)
    requires IsRun(ss, steps) && Init(ss[0]) && i < |ss| && EndedAlone(ss[i], t)
    requires ss[i].tasks[t].op.Set? || ss[i].tasks[t].op.Remove?
    ensures var task, h := ss[i].tasks[t], PastOf(ss, steps, i, t);
      WriteEnd(task.op, ss[i].nodes[task.node].caching, task.pc.outcome, h) && (h.orphan ==> task.op.Set?)
  {
    LawHolds(ss, steps, i, t);
    WriteEndOf(ss[i], t, Records(ss[i].log, t), PastOf(ss, steps, i, t));
  }

  // A Get that led its flight and did not hit ended as its one run of the getter did, if it asked
  // nobody, or if what it was told or left with is an inconclusive error and its context was alive.
  // Otherwise it ran no getter and returned what it was told or the error it was left with.
  lemma GetEnds(ss: seq<State>, steps: seq<Step>, i: nat, t: Tid)
    requires IsRun(ss, steps) && Init(ss[0]) && i < |ss| && t in ss[i].tasks
    requires ss[i].tasks[t].op.Get? && ss[i].tasks[t].pc.Ended? && ss[i].tasks[t].trail.dedup
    ensures var o, recs := ss[i].tasks[t].pc.outcome, Records(ss[i].log, t);
      && ((forall r :: !AskedFor(ss, steps, i, t, r)) ==> |recs| == 1 && o == GetterOutcome(recs[0]))
      && (forall r :: AskedFor(ss, steps, i, t, r) ==>
            if Inconclusive(r) && !Took(steps, i, t, Ctx(false)) then |recs| == 1 && o == GetterOutcome(recs[0])
            else recs == [] && o == Return(r))
  {
    GetEndKnown(ss, steps, i, t);
    CutExactly(ss, steps, i, t);
    AskedKnown(ss, steps, i, t);
  }

  // A Get with a nil destination ends with its error and asks nobody.
  lemma NilGetEnds(ss: seq<State>, steps: seq<Step>, i: nat, t: Tid)
    requires IsRun(ss, steps) && Init(ss[0]) && i < |ss| && t in ss[i].tasks
    requires ss[i].tasks[t].op.Get? && ss[i].tasks[t].op.nilDest && ss[i].tasks[t].pc.Ended?
    ensures ss[i].tasks[t].pc.outcome == Return(Fail(NilSink)) && Records(ss[i].log, t) == []
  {
    LawHolds(ss, steps, i, t);
  }

  // The task has ended and joined nobody.
  ghost predicate EndedAlone(s: State, t: Tid) {
    t in s.tasks && s.tasks[t].pc.Ended? && s.tasks[t].trail.joined.None? && s.tasks[t].node in s.nodes
  }

  // A Set that joined nobody and did not panic returned nil if and only if it lost nothing and was
  // told no error while it dealt with the owner, whatever became of its other requests; the error it
  // returned is the owner's. With caching off it always returns nil, and the empty key is refused.
  lemma SetEnds(ss: seq<State>, steps: seq<Step>, i: nat, t: Tid)
    requires IsRun(ss, steps) && Init(ss[0]) && i < |ss| && EndedAlone(ss[i], t) && ss[i].tasks[t].op.Set?
    ensures var o, caching := ss[i].tasks[t].pc.outcome, ss[i].nodes[ss[i].tasks[t].node].caching;
      if ss[i].tasks[t].op.key == "" then o == Return(Fail(EmptyKey))
      else if !caching then o == Return(Done)
      else
        && (o == Panic || (o == Return(Done) <==> !Troubled(ss, steps, i, t, false)))
        && (forall r :: AskedFor(ss, steps, i, t, r) && r.Fail? ==> o == Return(r))
        && (o == Panic <==> PastOf(ss, steps, i, t).orphan && !Troubled(ss, steps, i, t, false))
  {
    WriteEndKnown(ss, steps, i, t);
    TroubleExactly(ss, steps, i, t);
    AskedKnown(ss, steps, i, t);
  }

  // A Remove that joined nobody returned nil if and only if none of its requests was lost or answered
  // with an error; the owner's error is returned as it is, those of the fan-out together.
  lemma RemoveEnds(ss: seq<State>, steps: seq<Step>, i: nat, t: Tid)
    requires IsRun(ss, steps) && Init(ss[0]) && i < |ss| && EndedAlone(ss[i], t) && ss[i].tasks[t].op.Remove?
    ensures var o := ss[i].tasks[t].pc.outcome;
      && (o == Return(Done) <==> !Troubled(ss, steps, i, t, false) && !Troubled(ss, steps, i, t, true))
      && (forall r :: AskedFor(ss, steps, i, t, r) && r.Fail? ==> o == Return(r))
      && (!Troubled(ss, steps, i, t, false) && Troubled(ss, steps, i, t, true) ==> o == Return(Fail(Many)))
  {
    WriteEndKnown(ss, steps, i, t);
    TroubleExactly(ss, steps, i, t);
    AskedKnown(ss, steps, i, t);
  }

  // The same for RemoveKeys, all of whose requests belong to the fan-out.
  lemma RemoveKeysEnds(ss: seq<State>, steps: seq<Step>, i: nat, t: Tid)
    requires IsRun(ss, steps) && Init(ss[0]) && i < |ss| && t in ss[i].tasks
    requires ss[i].tasks[t].op.RemoveKeys? && ss[i].tasks[t].pc.Ended?
    ensures ss[i].tasks[t].pc.outcome == Return(if Troubled(ss, steps, i, t, true) then Fail(Many) else Done)
    ensures !Troubled(ss, steps, i, t, false)
  {
    LawHolds(ss, steps, i, t);
    RemoveKeysEndOf(ss[i], t, Records(ss[i].log, t), PastOf(ss, steps, i, t));
    TroubleExactly(ss, steps, i, t);
  }

  lemma RemoveKeysEndOf(s: State, t: Tid, recs: seq<GetterOut>, h: Past)
    requires t in s.tasks && s.tasks[t].op.RemoveKeys? && s.tasks[t].pc.Ended? && Known(s, t, recs, h)
    ensures s.tasks[t].pc.outcome == Return(if AnyFailed(h.told) then Fail(Many) else Done) && !Failed(h.asked)
  {
  }
}
