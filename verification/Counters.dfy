// What the load counters of a node count, in terms of what happened to its Gets: values that peers
// sent, and values and errors that the getter returned.
module Counters {
  import opened Views
  import opened Wire
  import opened Protocol
  import opened Outcomes
  import Flights
  import Hits
  import Statistics

  // The task has counted what its getter or its peer gave it.
  predicate Marks(task: Task, recs: seq<GetterOut>, asked: Option<Result>) {
    && (task.trail.got <==> task.op.Get? && !task.pc.Begin?)
    && (task.trail.local <==> task.op.Get? && |recs| == 1 && recs[0].Loaded? && !task.pc.CountLocal?)
    && (task.trail.localErr <==> task.op.Get? && |recs| == 1 && recs[0].LoadError? && !task.pc.CountLocal?)
    && (task.trail.peer <==>
          task.op.Get? && asked.Some? && asked.value.Value? && !task.pc.PopHot? && !task.pc.CountPeer?)
    && (task.trail.peerFail <==> task.op.Get? && asked.Some? && Inconclusive(asked.value) && !task.pc.PeerFailed?)
  }

  lemma NextKeepsMarks(nd: Node, t: Tid, task: Task, inp: Input, m: Move, recs: seq<GetterOut>, h: Past)
    requires m == Next(nd, t, task, inp) && m.Move? && Flights.Shape(task.op, task.pc)
    requires Law(task, nd.caching, recs, h) && Marks(task, recs, h.asked)
    ensures Marks(m.task, Recorded(recs, m.load), Note(h, nd, task.op, task.pc, inp).asked)
  {
    if InDo(task.pc) {
      DoKeepsMarks(nd, t, task, m, recs, h);
    } else if task.op.Get? && !InLock(task.pc) && !task.pc.FanOut? {
      GetKeepsMarks(nd, task, inp, m, recs, h);
    } else {
      RestKeepsMarks(nd, t, task, inp, m, recs, h);
    }
  }

  lemma DoKeepsMarks(nd: Node, t: Tid, task: Task, m: Move, recs: seq<GetterOut>, h: Past)
    requires HasKey(task.op) && InDo(task.pc) && m == NextFlight(nd, t, task) && m.Move?
    requires Flights.Shape(task.op, task.pc) && Marks(task, recs, h.asked)
    ensures Marks(m.task, Recorded(recs, m.load), Note(h, nd, task.op, task.pc, Go).asked)
  {
  }

  lemma RestKeepsMarks(nd: Node, t: Tid, task: Task, inp: Input, m: Move, recs: seq<GetterOut>, h: Past)
    requires m == Next(nd, t, task, inp) && m.Move? && !task.op.Get? && !InDo(task.pc)
    requires Marks(task, recs, h.asked)
    ensures Marks(m.task, Recorded(recs, m.load), Note(h, nd, task.op, task.pc, inp).asked)
  {
  }

  lemma GetKeepsMarks(nd: Node, task: Task, inp: Input, m: Move, recs: seq<GetterOut>, h: Past)
    requires task.op.Get? && Fits(task.pc, inp) && m == NextGet(nd, task, inp) && m.Move?
    requires Flights.Shape(task.op, task.pc) && Law(task, nd.caching, recs, h) && Marks(task, recs, h.asked)
    ensures Marks(m.task, Recorded(recs, m.load), Note(h, nd, task.op, task.pc, inp).asked)
  {
    if task.pc.LookMain? || task.pc.LookHot? {
      LookKeepsMarks(nd, task, inp, m, recs, h);
    } else if task.pc.Pick? || Hits.AtPeer(task.pc) {
      PeerKeepsMarks(nd, task, inp, m, recs, h);
    } else {
      LocalKeepsMarks(nd, task, inp, m, recs, h);
    }
  }

  lemma LookKeepsMarks(nd: Node, task: Task, inp: Input, m: Move, recs: seq<GetterOut>, h: Past)
    requires task.op.Get? && (task.pc.LookMain? || task.pc.LookHot?) && inp.At?
    requires m == Look(nd, task, task.pc.LookMain?, task.pc.again, inp.now) && Marks(task, recs, h.asked)
    ensures Marks(m.task, Recorded(recs, m.load), Note(h, nd, task.op, task.pc, inp).asked)
  {
  }

  lemma PeerKeepsMarks(nd: Node, task: Task, inp: Input, m: Move, recs: seq<GetterOut>, h: Past)
    requires task.op.Get? && (task.pc.Pick? || Hits.AtPeer(task.pc))
    requires Fits(task.pc, inp) && m == NextGet(nd, task, inp) && m.Move?
    requires Law(task, nd.caching, recs, h) && Marks(task, recs, h.asked)
    ensures Marks(m.task, Recorded(recs, m.load), Note(h, nd, task.op, task.pc, inp).asked)
  {
  }

  lemma LocalKeepsMarks(nd: Node, task: Task, inp: Input, m: Move, recs: seq<GetterOut>, h: Past)
    requires task.op.Get? && !task.pc.LookMain? && !task.pc.LookHot? && !task.pc.Pick? && !Hits.AtPeer(task.pc)
    requires Fits(task.pc, inp) && m == NextGet(nd, task, inp) && m.Move?
    requires Law(task, nd.caching, recs, h) && Marks(task, recs, h.asked)
    ensures Marks(m.task, Recorded(recs, m.load), Note(h, nd, task.op, task.pc, inp).asked)
  {
  }

  // ---------- whole runs ----------

  ghost predicate Marked(s: State, t: Tid, recs: seq<GetterOut>, asked: Option<Result>) {
    t in s.tasks ==> Marks(s.tasks[t], recs, asked)
  }

  lemma MovedMarked(s: State, u: Tid, m: Move, child: Option<Tid>, t: Tid, recs: seq<GetterOut>, h: Past, h': Past)
    requires u in s.tasks && Flights.SpawnOk(s, m, child) && Marked(s, t, recs, h.asked)
    requires t !in s.tasks ==> recs == [] && h == NOTHING
    requires if u == t then Marks(m.task, Recorded(recs, m.load), h'.asked) else h' == h
    ensures Marked(Moved(s, u, m, child), t, if u == t then Recorded(recs, m.load) else recs, h'.asked)
  {
  }

  lemma RunMarked(s: State, u: Tid, inp: Input, t: Tid, h: Past)
    requires Flights.Inv(s) && Enabled(s, Run(u, inp)) && Known(s, t, Records(s.log, t), h)
    requires Marked(s, t, Records(s.log, t), h.asked)
    ensures var s' := Apply(s, Run(u, inp)); Marked(s', t, Records(s'.log, t), NoteStep(h, s, Run(u, inp), t).asked)
  {
    var m := Next(s.nodes[s.tasks[u].node], u, s.tasks[u], inp);
    assert Flights.TaskOk(s, u);
    Flights.SpawnsFresh(s, u, inp);
    LoggedBy(s, u, m, ChildOf(inp), t);
    if u == t {
      NextKeepsMarks(s.nodes[s.tasks[t].node], t, s.tasks[t], inp, m, Records(s.log, t), h);
    }
    MovedMarked(s, u, m, ChildOf(inp), t, Records(s.log, t), h, NoteStep(h, s, Run(u, inp), t));
  }

  lemma QuietMarked(s: State, step: Step, t: Tid, h: Past)
    requires Enabled(s, step) && !step.Run? && Known(s, t, Records(s.log, t), h)
    requires Marked(s, t, Records(s.log, t), h.asked)
    ensures Marked(Apply(s, step), t, Records(Apply(s, step).log, t), h.asked)
  {
  }

  lemma {:induction false} MarksHold(ss: seq<State>, steps: seq<Step>, i: nat, t: Tid)
    requires IsRun(ss, steps) && Init(ss[0]) && i < |ss|
    ensures Marked(ss[i], t, Records(ss[i].log, t), PastOf(ss, steps, i, t).asked)
  {
    if i > 0 {
      MarksHold(ss, steps, i - 1, t);
      LawHolds(ss, steps, i - 1, t);
      Flights.InitInv(ss[0]);
      Flights.RunKeepsInv(ss, steps, i - 1);
      if steps[i - 1].Run? {
        RunMarked(ss[i - 1], steps[i - 1].t, steps[i - 1].input, t, PastOf(ss, steps, i - 1, t));
      } else {
        QuietMarked(ss[i - 1], steps[i - 1], t, PastOf(ss, steps, i - 1, t));
      }
    }
  }

  // ---------- what is counted ----------

  ghost predicate IsGetOn(s: State, t: Tid, n: Addr) {
    t in s.tasks && s.tasks[t].node == n && s.tasks[t].op.Get?
  }

  // The Gets of node n whose getter returned a value, once counted.
  ghost function Loaders(s: State, n: Addr): (ts: set<Tid>) {
    set t | t in s.tasks && IsGetOn(s, t, n) && !s.tasks[t].pc.CountLocal?
            && |Records(s.log, t)| == 1 && Records(s.log, t)[0].Loaded?
  }

  // Those whose getter returned an error.
  ghost function Failers(s: State, n: Addr): (ts: set<Tid>) {
    set t | t in s.tasks && IsGetOn(s, t, n) && !s.tasks[t].pc.CountLocal?
            && |Records(s.log, t)| == 1 && Records(s.log, t)[0].LoadError?
  }

  // Those to which a peer answered with a value, once it is in the hot cache and counted.
  ghost function Receivers(ss: seq<State>, steps: seq<Step>, i: nat, n: Addr): (ts: set<Tid>)
    requires IsRun(ss, steps) && i < |ss|
  {
    set t | t in ss[i].tasks && IsGetOn(ss[i], t, n) && !ss[i].tasks[t].pc.PopHot? && !ss[i].tasks[t].pc.CountPeer?
            && PastOf(ss, steps, i, t).asked.Some? && PastOf(ss, steps, i, t).asked.value.Value?
  }

  // Those that lost their request, or were answered, with an error that says nothing about the value.
  ghost function Unanswered(ss: seq<State>, steps: seq<Step>, i: nat, n: Addr): (ts: set<Tid>)
    requires IsRun(ss, steps) && i < |ss|
  {
    set t | t in ss[i].tasks && IsGetOn(ss[i], t, n) && !ss[i].tasks[t].pc.PeerFailed?
            && PastOf(ss, steps, i, t).asked.Some? && Inconclusive(PastOf(ss, steps, i, t).asked.value)
  }

  ghost function Begun(s: State, n: Addr): (ts: set<Tid>) {
    set t | t in s.tasks && IsGetOn(s, t, n) && !s.tasks[t].pc.Begin?
  }

  lemma LocalLoadsMean(ss: seq<State>, steps: seq<Step>, i: nat, n: Addr)
    requires IsRun(ss, steps) && Init(ss[0]) && i < |ss|
    ensures Loaders(ss[i], n) == Statistics.Marked(ss[i].tasks, n, Statistics.LocalLoads)
    ensures Failers(ss[i], n) == Statistics.Marked(ss[i].tasks, n, Statistics.LocalLoadErrs)
  {
    forall t | t in ss[i].tasks
      ensures Marks(ss[i].tasks[t], Records(ss[i].log, t), PastOf(ss, steps, i, t).asked)
    {
      MarksHold(ss, steps, i, t);
    }
  }

  lemma PeerLoadsMean(ss: seq<State>, steps: seq<Step>, i: nat, n: Addr)
    requires IsRun(ss, steps) && Init(ss[0]) && i < |ss|
    ensures Begun(ss[i], n) == Statistics.Marked(ss[i].tasks, n, Statistics.Gets)
    ensures Receivers(ss, steps, i, n) == Statistics.Marked(ss[i].tasks, n, Statistics.PeerLoads)
    ensures Unanswered(ss, steps, i, n) == Statistics.Marked(ss[i].tasks, n, Statistics.PeerErrors)
  {
    forall t | t in ss[i].tasks
      ensures Marks(ss[i].tasks[t], Records(ss[i].log, t), PastOf(ss, steps, i, t).asked)
    {
      MarksHold(ss, steps, i, t);
    }
  }

  // In every reachable state Gets counts the Gets that have begun, PeerLoads those to which a peer
  // gave a value, PeerErrors those whose peer failed in a way that is not final, LocalLoads those to
  // which the getter gave a value and LocalLoadErrs those to which it gave an error.
  lemma LoadCountersMean(ss: seq<State>, steps: seq<Step>, i: nat, n: Addr)
    requires IsRun(ss, steps) && Init(ss[0]) && i < |ss| && n in ss[i].nodes
    ensures var st := ss[i].nodes[n].stats;
      && st.gets == |Begun(ss[i], n)|
      && st.peerLoads == |Receivers(ss, steps, i, n)| && st.peerErrors == |Unanswered(ss, steps, i, n)|
      && st.localLoads == |Loaders(ss[i], n)| && st.localErrs == |Failers(ss[i], n)|
  {
    Statistics.Invariant(ss, steps, i);
    assert Statistics.Counted(ss[i], n);
    LocalLoadsMean(ss, steps, i, n);
    PeerLoadsMean(ss, steps, i, n);
  }
}
