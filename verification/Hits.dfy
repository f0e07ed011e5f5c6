// When a Get hits: what it finds in a cache of its node, alive at the moment of the look, is what it
// returns, and every ended Get has hit, joined a flight, or led one and missed.
module Hits {
  import opened Views
  import opened Wire
  import opened Protocol
  import Flights

  // The live copy that the task came across, and whether it was on the second look.
  type Found = Option<(bool, View)>

  // Which cache the task looks into.
  function Looked(nd: Node, pc: Pc): (cache: map<Key, View>) {
    if pc.LookMain? then nd.main else nd.hot
  }

  predicate Finds(nd: Node, op: Op, pc: Pc, inp: Input) {
    && op.Get? && (pc.LookMain? || pc.LookHot?) && inp.At? && nd.caching
    && op.key in Looked(nd, pc) && Alive(Looked(nd, pc)[op.key].expire, inp.now)
  }

  function NoteFound(f: Found, nd: Node, op: Op, pc: Pc, inp: Input): (f': Found) {
    if Finds(nd, op, pc, inp) then Some((pc.again, Looked(nd, pc)[op.key])) else f
  }

  // ---------- one look ----------

  // A look finds a copy if and only if the node caches and holds one that is alive then. A
  // copy that is not is dropped from the cache, and nothing else changes.
  lemma LookExactly(nd: Node, task: Task, inp: Input, m: Move)
    requires task.op.Get? && (task.pc.LookMain? || task.pc.LookHot?) && inp.At?
    requires m == Look(nd, task, task.pc.LookMain?, task.pc.again, inp.now)
    ensures var k, cache, cache' := task.op.key, Looked(nd, task.pc), Looked(m.node, task.pc);
      && (m.task.pc.CountHit? <==> Finds(nd, task.op, task.pc, inp))
      && (m.task.pc.CountHit? ==> m.task.pc == CountHit(task.pc.again, cache[k]) && m.node == nd)
      && (nd.caching && k in cache && !Alive(cache[k].expire, inp.now) ==> cache' == cache - {k})
      && (!(nd.caching && k in cache && !Alive(cache[k].expire, inp.now)) ==> m.node == nd)
      && m.task == task.(pc := m.task.pc)
  {
    if task.op.key in Looked(nd, task.pc) {
      PassedExactly(Looked(nd, task.pc)[task.op.key].expire, inp.now);
    }
  }

  // A copy that has expired stays expired.
  lemma ExpiredForGood(v: View, now: Time, later: Time)
    requires !Alive(v.expire, now) && Nanos(now) <= Nanos(later)
    ensures !Alive(v.expire, later)
  {
  }

  // ---------- the law ----------

  // On the way to the first look's verdict.
  predicate Early(pc: Pc) {
    pc.Begin? || (pc.LookMain? && !pc.again) || (pc.LookHot? && !pc.again) || (pc.CountHit? && !pc.again)
    || pc.CountLoad?
  }

  // Leading the flight before or at the second look.
  predicate Again(pc: Pc) {
    pc.Enter? || (pc.LookMain? && pc.again) || (pc.LookHot? && pc.again) || (pc.CountHit? && pc.again) || pc.CountDedup?
  }

  predicate Clear(tr: Trail) {
    !tr.hit && !tr.rehit
  }

  predicate HitLaw(task: Task, f: Found)
    requires task.op.Get?
  {
    var tr, pc := task.trail, task.pc;
    && (tr.joined.Some? ==> (pc.Wait? || pc.Ended?) && f.None?) && (pc.Wait? ==> tr.joined.Some?)
    && (tr.load <==> !Early(pc) && !(pc.Ended? && (task.op.nilDest || (f.Some? && !f.value.0))))
    && match pc
       case CountHit(again, v) => f == Some((again, v)) && Clear(tr) && !tr.dedup
       case Store(o) => SecondHit(tr, o, f)
       case Signal(o) => SecondHit(tr, o, f)
       case Delete(o) => SecondHit(tr, o, f)
       case Ended(o) =>
         && (f.Some? ==> o == Return(Value(f.value.1)))
         && (tr.hit <==> f.Some? && !f.value.0) && (tr.rehit <==> f.Some? && f.value.0)
         && (tr.dedup <==> !task.op.nilDest && f.None? && tr.joined.None?)
       case _ => f.None? && Clear(tr) && (tr.dedup <==> !Early(pc) && !Again(pc) && !pc.Wait?)
  }

  predicate SecondHit(tr: Trail, o: Outcome, f: Found) {
    && (f.Some? ==> f.value.0 && o == Return(Value(f.value.1)))
    && (tr.rehit <==> f.Some?) && !tr.hit && (tr.dedup <==> f.None?)
  }

  lemma NextKeepsHitLaw(nd: Node, t: Tid, task: Task, inp: Input, m: Move, f: Found)
    requires m == Next(nd, t, task, inp) && m.Move? && task.op.Get? && Flights.Shape(task.op, task.pc)
    requires HitLaw(task, f) && (task.op.nilDest ==> task.pc.Begin?)
    ensures m.task.op == task.op && HitLaw(m.task, NoteFound(f, nd, task.op, task.pc, inp))
  {
    if InDo(task.pc) {
      DoKeepsHitLaw(nd, t, task, m, f);
    } else if task.pc.LookMain? || task.pc.LookHot? {
      LookExactly(nd, task, inp, m);
      LookKeepsHitLaw(nd, task, inp, m, f);
    } else {
      LoadKeepsHitLaw(nd, task, inp, m, f);
    }
  }

  lemma DoKeepsHitLaw(nd: Node, t: Tid, task: Task, m: Move, f: Found)
    requires task.op.Get? && !task.op.nilDest && InDo(task.pc) && m == NextFlight(nd, t, task) && m.Move?
    requires HitLaw(task, f)
    ensures m.task.op == task.op && HitLaw(m.task, f)
  {
  }

  lemma LookKeepsHitLaw(nd: Node, task: Task, inp: Input, m: Move, f: Found)
    requires task.op.Get? && !task.op.nilDest && (task.pc.LookMain? || task.pc.LookHot?) && inp.At? && HitLaw(task, f)
    requires m == Look(nd, task, task.pc.LookMain?, task.pc.again, inp.now)
    requires m.task.pc.CountHit? <==> Finds(nd, task.op, task.pc, inp)
    requires m.task.pc.CountHit? ==> m.task.pc == CountHit(task.pc.again, Looked(nd, task.pc)[task.op.key])
    ensures m.task.op == task.op && HitLaw(m.task, NoteFound(f, nd, task.op, task.pc, inp))
  {
  }

  lemma LoadKeepsHitLaw(nd: Node, task: Task, inp: Input, m: Move, f: Found)
    requires task.op.Get? && Fits(task.pc, inp) && m == NextGet(nd, task, inp) && m.Move? && HitLaw(task, f)
    requires !task.pc.LookMain? && !task.pc.LookHot? && (task.op.nilDest ==> task.pc.Begin?)
    ensures m.task.op == task.op && HitLaw(m.task, f)
  {
    if task.pc.Begin? || task.pc.CountHit? || task.pc.CountLoad? || task.pc.CountDedup? {
      CountKeepsHitLaw(nd, task, inp, m, f);
    } else {
      MissKeepsHitLaw(nd, task, inp, m, f);
    }
  }

  lemma CountKeepsHitLaw(nd: Node, task: Task, inp: Input, m: Move, f: Found)
    requires task.op.Get? && Fits(task.pc, inp) && m == NextGet(nd, task, inp) && m.Move? && HitLaw(task, f)
    requires task.pc.Begin? || task.pc.CountHit? || task.pc.CountLoad? || task.pc.CountDedup?
    requires task.op.nilDest ==> task.pc.Begin?
    ensures m.task.op == task.op && HitLaw(m.task, f)
  {
  }

  // Past the second look nothing is found any more.
  lemma MissKeepsHitLaw(nd: Node, task: Task, inp: Input, m: Move, f: Found)
    requires task.op.Get? && !task.op.nilDest && Fits(task.pc, inp) && m == NextGet(nd, task, inp) && m.Move?
    requires HitLaw(task, f) && !Early(task.pc) && !Again(task.pc)
    ensures m.task.op == task.op && HitLaw(m.task, f)
  {
    if AtPeer(task.pc) {
      PeerKeepsHitLaw(nd, task, inp, m, f);
    } else {
      GetterKeepsHitLaw(nd, task, inp, m, f);
    }
  }

  predicate AtPeer(pc: Pc) {
    pc.CallPeer? || pc.AwaitPeer? || pc.PopHot? || pc.CountPeer? || pc.PeerFailed?
  }

  lemma PeerKeepsHitLaw(nd: Node, task: Task, inp: Input, m: Move, f: Found)
    requires task.op.Get? && !task.op.nilDest && Fits(task.pc, inp) && m == NextGet(nd, task, inp) && m.Move?
    requires HitLaw(task, f) && AtPeer(task.pc)
    ensures m.task.op == task.op && HitLaw(m.task, f)
  {
    PeerMove(nd, task, inp, m);
  }

  // A task at its peer stays there, runs its getter or stores a result, and counts no hit.
  lemma PeerMove(nd: Node, task: Task, inp: Input, m: Move)
    requires task.op.Get? && Fits(task.pc, inp) && m == NextGet(nd, task, inp) && m.Move? && AtPeer(task.pc)
    ensures m.task.op == task.op && (AtPeer(m.task.pc) || m.task.pc.RunGetter? || m.task.pc.Store?)
    ensures SameHits(task.trail, m.task.trail)
  {
    var tr, tr' := task.trail, m.task.trail;
    match task.pc
    case CallPeer(_) => assert tr' == tr;
    case AwaitPeer(_, c) => assert tr' == if inp.Lose? then tr else tr.(via := Some(c));
    case PopHot(_) => assert tr' == tr;
    case CountPeer(_) => assert tr' == tr.(peer := true);
    case PeerFailed(_) => FailedMove(nd, task, inp, m);
  }

  lemma FailedMove(nd: Node, task: Task, inp: Input, m: Move)
    requires task.op.Get? && task.pc.PeerFailed? && inp.Ctx? && m == NextGet(nd, task, inp) && m.Move?
    ensures m.task.op == task.op && (m.task.pc.RunGetter? || m.task.pc.Store?) && SameHits(task.trail, m.task.trail)
  {
  }

  predicate SameHits(tr: Trail, tr': Trail) {
    && tr'.hit == tr.hit && tr'.rehit == tr.rehit && tr'.load == tr.load
    && tr'.dedup == tr.dedup && tr'.joined == tr.joined
  }

  lemma GetterKeepsHitLaw(nd: Node, task: Task, inp: Input, m: Move, f: Found)
    requires task.op.Get? && !task.op.nilDest && Fits(task.pc, inp) && m == NextGet(nd, task, inp) && m.Move?
    requires HitLaw(task, f) && !Early(task.pc) && !Again(task.pc) && !AtPeer(task.pc)
    ensures m.task.op == task.op && HitLaw(m.task, f)
  {
  }

  // ---------- whole runs ----------

  // What task t came across in the first i steps.
  ghost function FoundBy(ss: seq<State>, steps: seq<Step>, i: nat, t: Tid): (f: Found)
    requires IsRun(ss, steps) && i < |ss|
  {
    if i == 0 then None
    else NoteStep(FoundBy(ss, steps, i - 1, t), ss[i - 1], steps[i - 1], t)
  }

  ghost function NoteStep(f: Found, s: State, step: Step, t: Tid): (f': Found)
    requires Enabled(s, step)
  {
    if step.Run? && step.t == t then NoteFound(f, s.nodes[s.tasks[t].node], s.tasks[t].op, s.tasks[t].pc, step.input)
    else f
  }

  ghost predicate Known(s: State, t: Tid, f: Found) {
    if t in s.tasks then s.tasks[t].op.Get? ==> HitLaw(s.tasks[t], f) else f.None?
  }

  lemma MovedKnown(s: State, u: Tid, m: Move, child: Option<Tid>, t: Tid, f: Found, f': Found)
    requires u in s.tasks && Flights.SpawnOk(s, m, child) && m.task.op == s.tasks[u].op && Known(s, t, f)
    requires if u == t then m.task.op.Get? ==> HitLaw(m.task, f') else f' == f
    ensures Known(Moved(s, u, m, child), t, f')
  {
  }

  lemma RunKnown(s: State, u: Tid, inp: Input, t: Tid, f: Found)
    requires Flights.Inv(s) && Enabled(s, Run(u, inp)) && Known(s, t, f)
    ensures Known(Apply(s, Run(u, inp)), t, NoteStep(f, s, Run(u, inp), t))
  {
    var m := Next(s.nodes[s.tasks[u].node], u, s.tasks[u], inp);
    assert Flights.TaskOk(s, u);
    Flights.RunIsFlightMove(s, u, inp, m);
    if u == t && s.tasks[t].op.Get? {
      NextKeepsHitLaw(s.nodes[s.tasks[t].node], t, s.tasks[t], inp, m, f);
    }
    MovedKnown(s, u, m, ChildOf(inp), t, f, NoteStep(f, s, Run(u, inp), t));
  }

  lemma QuietKnown(s: State, step: Step, t: Tid, f: Found)
    requires Enabled(s, step) && !step.Run? && Known(s, t, f)
    ensures Known(Apply(s, step), t, f)
  {
  }

  lemma {:induction false} LawHolds(ss: seq<State>, steps: seq<Step>, i: nat, t: Tid)
    requires IsRun(ss, steps) && Init(ss[0]) && i < |ss|
    ensures Known(ss[i], t, FoundBy(ss, steps, i, t))
  {
    if i > 0 {
      LawHolds(ss, steps, i - 1, t);
      Flights.InitInv(ss[0]);
      Flights.RunKeepsInv(ss, steps, i - 1);
      if steps[i - 1].Run? {
        RunKnown(ss[i - 1], steps[i - 1].t, steps[i - 1].input, t, FoundBy(ss, steps, i - 1, t));
      } else {
        QuietKnown(ss[i - 1], steps[i - 1], t, FoundBy(ss, steps, i - 1, t));
      }
    }
  }

  // In step j task t looks, and the view v is in the cache it looks into and alive at that moment.
  ghost predicate HitAt(ss: seq<State>, steps: seq<Step>, j: nat, t: Tid, again: bool, v: View) {
    && j < |steps| && j < |ss| && steps[j].Run? && steps[j].t == t && t in ss[j].tasks
    && ss[j].tasks[t].node in ss[j].nodes
    && var task, nd := ss[j].tasks[t], ss[j].nodes[ss[j].tasks[t].node];
       Finds(nd, task.op, task.pc, steps[j].input) && task.pc.again == again && Looked(nd, task.pc)[task.op.key] == v
  }

  ghost predicate HitBy(ss: seq<State>, steps: seq<Step>, i: nat, t: Tid, again: bool, v: View) {
    exists j: nat :: j < i && HitAt(ss, steps, j, t, again, v)
  }

  lemma OneStepHit(ss: seq<State>, steps: seq<Step>, i: nat, t: Tid, again: bool, v: View)
    ensures HitBy(ss, steps, i + 1, t, again, v)
       <==> HitBy(ss, steps, i, t, again, v) || HitAt(ss, steps, i, t, again, v)
  {
  }

  lemma {:induction false} FoundExactly(ss: seq<State>, steps: seq<Step>, i: nat, t: Tid, again: bool, v: View)
    requires IsRun(ss, steps) && Init(ss[0]) && i < |ss|
    ensures FoundBy(ss, steps, i, t) == Some((again, v)) <==> HitBy(ss, steps, i, t, again, v)
  {
    if i > 0 {
      FoundExactly(ss, steps, i - 1, t, again, v);
      OneStepHit(ss, steps, i - 1, t, again, v);
      FoundNext(ss, steps, i - 1, t, again, v);
    }
  }

  lemma FoundNext(ss: seq<State>, steps: seq<Step>, i: nat, t: Tid, again: bool, v: View)
    requires IsRun(ss, steps) && Init(ss[0]) && i < |steps|
    ensures FoundBy(ss, steps, i + 1, t) == Some((again, v))
       <==> FoundBy(ss, steps, i, t) == Some((again, v)) || HitAt(ss, steps, i, t, again, v)
  {
    LawHolds(ss, steps, i, t);
    StepFound(ss, steps, i, t, again, v, FoundBy(ss, steps, i, t));
  }

  lemma StepFound(ss: seq<State>, steps: seq<Step>, i: nat, t: Tid, again: bool, v: View, f: Found)
    requires IsRun(ss, steps) && i < |steps| && Known(ss[i], t, f)
    ensures NoteStep(f, ss[i], steps[i], t) == Some((again, v))
       <==> f == Some((again, v)) || HitAt(ss, steps, i, t, again, v)
  {
  }

  // Every Get that has ended. If it came across a live copy it returned that copy, and counted a hit of
  // the first or the second look; it counted a load unless it hit at first or had a nil destination;
  // and it led a flight and missed if and only if it neither hit nor joined another flight.
  lemma GetHits(ss: seq<State>, steps: seq<Step>, i: nat, t: Tid)
    requires IsRun(ss, steps) && Init(ss[0]) && i < |ss| && t in ss[i].tasks
    requires ss[i].tasks[t].op.Get? && ss[i].tasks[t].pc.Ended?
    ensures var task := ss[i].tasks[t];
      && (forall again, v :: HitBy(ss, steps, i, t, again, v) ==>
            task.pc.outcome == Return(Value(v)) && task.trail.hit == !again && task.trail.rehit == again)
      && (task.trail.hit || task.trail.rehit ==> exists v :: HitBy(ss, steps, i, t, task.trail.rehit, v))
      && (task.trail.load <==> !task.op.nilDest && !task.trail.hit)
      && (task.trail.dedup <==>
            !task.op.nilDest && !task.trail.hit && !task.trail.rehit && task.trail.joined.None?)
  {
    LawHolds(ss, steps, i, t);
    var f := FoundBy(ss, steps, i, t);
    EndOf(ss[i].tasks[t], f);
    forall again, v
      ensures f == Some((again, v)) <==> HitBy(ss, steps, i, t, again, v)
    {
      FoundExactly(ss, steps, i, t, again, v);
    }
    if f.Some? {
      assert f == Some((f.value.0, f.value.1));
      assert HitBy(ss, steps, i, t, f.value.0, f.value.1);
    }
  }

  lemma EndOf(task: Task, f: Found)
    requires task.op.Get? && task.pc.Ended? && HitLaw(task, f)
    ensures f.Some? ==> task.pc.outcome == Return(Value(f.value.1))
    ensures (task.trail.hit <==> f.Some? && !f.value.0) && (task.trail.rehit <==> f.Some? && f.value.0)
    ensures task.trail.load <==> !task.op.nilDest && !task.trail.hit
    ensures task.trail.dedup <==> !task.op.nilDest && f.None? && task.trail.joined.None?
  {
  }
}
