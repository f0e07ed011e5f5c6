// When a key is in the main cache and the hot cache of one node at the same time: exactly after a load
// from a peer populates the hot cache while the key is in main and no write is about to clear it. In
// particular never, as long as no Set or RemoteSet takes the lock while a load is in flight.
module Disjoint {
  import opened Views
  import opened Protocol
  import Flights
  import Quiet

  // The flight has missed both caches and not yet populated one.
  predicate MissedBoth(pc: Pc) {
    pc.CountDedup? || pc.Pick? || pc.CallPeer? || pc.AwaitPeer? || pc.PopHot? || pc.PeerFailed? || pc.RunGetter?
    || pc.CountLocal? || pc.PopMain?
  }

  predicate Writing(pc: Pc, k: Key) {
    (pc.First? || pc.Second?) && pc.job.Write? && pc.job.key == k
  }

  // ---------- one move ----------

  ghost predicate CopyMove(nd: Node, task: Task, m: Move, k: Key)
    requires m.Move?
  {
    var pc, pc', get := task.pc, m.task.pc, Quiet.IsGet(task.op, k);
    && m.task.op == task.op && m.task.node == task.node && m.node.caching == nd.caching
    && (k in m.node.main ==> k in nd.main || (get && pc.PopMain? && nd.caching) || (pc.First? && Writing(pc, k)))
    && (k in m.node.hot ==> k in nd.hot || (get && pc.PopHot? && nd.caching))
    && (pc.First? && Writing(pc, k) ==> pc'.Second? && pc'.job == pc.job)
    && (pc.Second? && Writing(pc, k) ==> k !in m.node.hot)
    && (get && nd.caching && pc'.LookHot? && pc'.again ==> pc.LookMain? && pc.again && k !in m.node.main)
    && (get && nd.caching && MissedBoth(pc') ==>
          (MissedBoth(pc) && !Exits(pc)) || (pc.LookHot? && pc.again && k !in m.node.hot))
    && (Writing(pc', k) ==>
          (pc'.First? && pc.Acquire? && pc.job == pc'.job) || (pc'.Second? && pc.First? && pc.job == pc'.job))
  }

  predicate Exits(pc: Pc) {
    pc.PopHot? || pc.PopMain?
  }

  lemma NextIsCopyMove(nd: Node, t: Tid, task: Task, inp: Input, m: Move, k: Key)
    requires m == Next(nd, t, task, inp) && m.Move? && Flights.Shape(task.op, task.pc)
    ensures CopyMove(nd, task, m, k)
  {
    if InDo(task.pc) {
      DoIsCopyMove(nd, t, task, m, k);
    } else if InLock(task.pc) {
      LockIsCopyMove(nd, t, task, m, k);
    } else if task.op.Get? {
      GetIsCopyMove(nd, task, inp, m, k);
    } else {
      RestIsCopyMove(nd, t, task, inp, m, k);
    }
  }

  lemma DoIsCopyMove(nd: Node, t: Tid, task: Task, m: Move, k: Key)
    requires HasKey(task.op) && InDo(task.pc) && m == NextFlight(nd, t, task) && m.Move?
    ensures CopyMove(nd, task, m, k)
  {
  }

  // Outside Do and Lock only Gets touch the caches.
  lemma RestIsCopyMove(nd: Node, t: Tid, task: Task, inp: Input, m: Move, k: Key)
    requires m == Next(nd, t, task, inp) && m.Move? && !task.op.Get? && !InDo(task.pc) && !InLock(task.pc)
    ensures CopyMove(nd, task, m, k)
  {
    assert m.node == nd;
  }

  lemma LockIsCopyMove(nd: Node, t: Tid, task: Task, m: Move, k: Key)
    requires InLock(task.pc) && m == Critical(nd, t, task) && m.Move? && Flights.Shape(task.op, task.pc)
    ensures CopyMove(nd, task, m, k)
  {
  }

  lemma GetIsCopyMove(nd: Node, task: Task, inp: Input, m: Move, k: Key)
    requires task.op.Get? && Fits(task.pc, inp) && m == NextGet(nd, task, inp) && m.Move?
    ensures CopyMove(nd, task, m, k)
  {
    if task.pc.LookMain? || task.pc.LookHot? {
      LookIsCopyMove(nd, task, task.pc.LookMain?, task.pc.again, inp.now, m, k);
    } else {
      LoadIsCopyMove(nd, task, inp, m, k);
    }
  }

  lemma LookIsCopyMove(nd: Node, task: Task, inMain: bool, again: bool, now: Time, m: Move, k: Key)
    requires task.op.Get? && m == Look(nd, task, inMain, again, now)
    requires (inMain && task.pc == LookMain(again)) || (!inMain && task.pc == LookHot(again))
    ensures CopyMove(nd, task, m, k)
  {
  }

  lemma LoadIsCopyMove(nd: Node, task: Task, inp: Input, m: Move, k: Key)
    requires task.op.Get? && Fits(task.pc, inp) && m == NextGet(nd, task, inp) && m.Move?
    requires !task.pc.LookMain? && !task.pc.LookHot?
    ensures CopyMove(nd, task, m, k)
  {
    if Exits(task.pc) {
      PopIsCopyMove(nd, task, inp, m, k);
    } else if task.pc.CallPeer? || task.pc.AwaitPeer? || task.pc.PeerFailed? || task.pc.CountPeer? {
      PeerIsCopyMove(nd, task, inp, m, k);
    } else {
      LocalIsCopyMove(nd, task, inp, m, k);
    }
  }

  lemma PopIsCopyMove(nd: Node, task: Task, inp: Input, m: Move, k: Key)
    requires task.op.Get? && Fits(task.pc, inp) && m == NextGet(nd, task, inp) && m.Move? && Exits(task.pc)
    ensures CopyMove(nd, task, m, k)
  {
  }

  lemma PeerIsCopyMove(nd: Node, task: Task, inp: Input, m: Move, k: Key)
    requires task.op.Get? && Fits(task.pc, inp) && m == NextGet(nd, task, inp) && m.Move?
    requires task.pc.CallPeer? || task.pc.AwaitPeer? || task.pc.PeerFailed? || task.pc.CountPeer?
    ensures CopyMove(nd, task, m, k)
  {
    assert m.node.main == nd.main && m.node.hot == nd.hot;
  }

  lemma LocalIsCopyMove(nd: Node, task: Task, inp: Input, m: Move, k: Key)
    requires task.op.Get? && Fits(task.pc, inp) && m == NextGet(nd, task, inp) && m.Move?
    requires !task.pc.LookMain? && !task.pc.LookHot? && !Exits(task.pc)
    requires !task.pc.CallPeer? && !task.pc.AwaitPeer? && !task.pc.PeerFailed? && !task.pc.CountPeer?
    ensures CopyMove(nd, task, m, k)
  {
    assert m.node.main == nd.main && m.node.hot == nd.hot;
  }

  // ---------- what every run keeps ----------

  // A flight that has missed both caches and not yet populated one finds no hot copy when it does:
  // only flights add hot copies, and this is the only one for the key.
  ghost predicate HotMissed(s: State, t: Tid, k: Key)
    requires t in s.tasks
  {
    && s.tasks[t].node in s.nodes
    && (Quiet.IsGet(s.tasks[t].op, k) && s.nodes[s.tasks[t].node].caching && MissedBoth(s.tasks[t].pc) ==>
          k !in s.nodes[s.tasks[t].node].hot)
  }

  ghost predicate HotInv(s: State, k: Key) {
    forall t {:trigger HotMissed(s, t, k)} :: t in s.tasks ==> HotMissed(s, t, k)
  }

  // The holder of the lock has written k to main and is about to clear it from hot.
  ghost predicate AboutToClear(s: State, n: Addr, k: Key)
    requires n in s.nodes
  {
    var mu := s.nodes[n].loads.mu;
    && mu.Some? && mu.value in s.tasks && s.tasks[mu.value].node == n
    && s.tasks[mu.value].pc.Second? && Writing(s.tasks[mu.value].pc, k)
  }

  // Node n does not hold two copies of k, except in the middle of a write of k under the lock.
  ghost predicate OneCopy(s: State, n: Addr, k: Key) {
    n in s.nodes && k in s.nodes[n].main && k in s.nodes[n].hot ==> AboutToClear(s, n, k)
  }

  lemma HotMover(s: State, s': State, t: Tid, m: Move, child: Option<Tid>, k: Key)
    requires HotInv(s, k) && t in s.tasks && s.tasks[t].node in s.nodes && Flights.SpawnOk(s, m, child)
    requires s' == Moved(s, t, m, child) && CopyMove(s.nodes[s.tasks[t].node], s.tasks[t], m, k)
    ensures HotMissed(s', t, k)
  {
    assert HotMissed(s, t, k);
  }

  lemma HotBystander(s: State, s': State, t: Tid, m: Move, child: Option<Tid>, u: Tid, k: Key)
    requires Flights.Inv(s) && HotInv(s, k) && t in s.tasks && s.tasks[t].node in s.nodes
    requires Flights.SpawnOk(s, m, child)
    requires s' == Moved(s, t, m, child) && CopyMove(s.nodes[s.tasks[t].node], s.tasks[t], m, k)
    requires u in s.tasks && u != t
    ensures HotMissed(s', u, k)
  {
    assert HotMissed(s, u, k) && HotMissed(s, t, k) && Flights.TaskOk(s, t) && Flights.TaskOk(s, u);
    var a, b := s.tasks[t], s.tasks[u];
    if a.node == b.node && Quiet.IsGet(a.op, k) && Quiet.IsGet(b.op, k) && Exits(a.pc) && MissedBoth(b.pc) {
      Flights.OneLeader(s, t, u);
    }
  }

  lemma StepKeepsHotInv(s: State, step: Step, k: Key)
    requires Flights.Inv(s) && HotInv(s, k) && Enabled(s, step)
    ensures HotInv(Apply(s, step), k)
  {
    var s' := Apply(s, step);
    if step.Run? {
      var t := step.t;
      var m := Next(s.nodes[s.tasks[t].node], t, s.tasks[t], step.input);
      assert Flights.TaskOk(s, t);
      Flights.SpawnsFresh(s, t, step.input);
      NextIsCopyMove(s.nodes[s.tasks[t].node], t, s.tasks[t], step.input, m, k);
      MovedHotInv(s, s', t, m, ChildOf(step.input), k);
    } else {
      forall u | u in s'.tasks
        ensures HotMissed(s', u, k)
      {
        if u in s.tasks {
          assert HotMissed(s, u, k);
        }
      }
    }
  }

  lemma MovedHotInv(s: State, s': State, t: Tid, m: Move, child: Option<Tid>, k: Key)
    requires Flights.Inv(s) && HotInv(s, k) && t in s.tasks && s.tasks[t].node in s.nodes
    requires Flights.SpawnOk(s, m, child)
    requires s' == Moved(s, t, m, child) && CopyMove(s.nodes[s.tasks[t].node], s.tasks[t], m, k)
    ensures HotInv(s', k)
  {
    forall u | u in s'.tasks
      ensures HotMissed(s', u, k)
    {
      if u == t {
        HotMover(s, s', t, m, child, k);
      } else if u in s.tasks {
        HotBystander(s, s', t, m, child, u, k);
      }
    }
  }

  // ---------- exactly which steps make two copies ----------

  // The step populates the hot cache of the caching node n with k while k is in main there and no
  // write under the lock is about to clear k from hot.
  ghost predicate Breaks(s: State, step: Step, n: Addr, k: Key) {
    && step.Run? && step.t in s.tasks && s.tasks[step.t].node == n && n in s.nodes
    && Quiet.IsGet(s.tasks[step.t].op, k) && s.tasks[step.t].pc.PopHot?
    && s.nodes[n].caching && k in s.nodes[n].main && !AboutToClear(s, n, k)
  }

  // A step of a task on another node, or of no task.
  lemma ElsewhereKeeps(s: State, step: Step, n: Addr, k: Key)
    requires Flights.Inv(s) && OneCopy(s, n, k) && Enabled(s, step)
    requires step.Run? ==> s.tasks[step.t].node != n
    ensures OneCopy(Apply(s, step), n, k)
  {
    if n in s.nodes {
      assert Flights.NodeOk(s, n);
    }
    if step.Run? {
      Flights.SpawnsFresh(s, step.t, step.input);
    }
  }

  // The lock stays with its holder while another task of the node moves.
  lemma HolderStays(s: State, s': State, t: Tid, m: Move, child: Option<Tid>, k: Key)
    requires Flights.Inv(s) && t in s.tasks && s.tasks[t].node in s.nodes && Flights.SpawnOk(s, m, child)
    requires s' == Moved(s, t, m, child)
    requires Flights.FlightMove(s.nodes[s.tasks[t].node], m.node, t, s.tasks[t], m.task)
    requires s.nodes[s.tasks[t].node].loads.mu != Some(t) && AboutToClear(s, s.tasks[t].node, k)
    ensures AboutToClear(s', s.tasks[t].node, k)
  {
    assert Flights.TaskOk(s, t);
  }

  // The step that writes k to main leaves its task about to clear hot.
  lemma WriterClears(s: State, s': State, t: Tid, m: Move, child: Option<Tid>, k: Key)
    requires t in s.tasks && s.tasks[t].node in s.nodes && Flights.SpawnOk(s, m, child)
    requires Flights.TaskOk(s, t) && s' == Moved(s, t, m, child)
    requires CopyMove(s.nodes[s.tasks[t].node], s.tasks[t], m, k)
    requires Flights.FlightMove(s.nodes[s.tasks[t].node], m.node, t, s.tasks[t], m.task)
    requires s.tasks[t].pc.First? && Writing(s.tasks[t].pc, k)
    ensures AboutToClear(s', s.tasks[t].node, k)
  {
  }

  lemma MoverKeeps(s: State, s': State, t: Tid, m: Move, child: Option<Tid>, k: Key)
    requires Flights.Inv(s) && HotInv(s, k) && t in s.tasks && s.tasks[t].node in s.nodes
    requires Flights.SpawnOk(s, m, child)
    requires OneCopy(s, s.tasks[t].node, k) && s' == Moved(s, t, m, child)
    requires CopyMove(s.nodes[s.tasks[t].node], s.tasks[t], m, k)
    requires Flights.FlightMove(s.nodes[s.tasks[t].node], m.node, t, s.tasks[t], m.task)
    requires (Quiet.IsGet(s.tasks[t].op, k) && s.tasks[t].pc.PopHot? && s.nodes[s.tasks[t].node].caching
              && k in s.nodes[s.tasks[t].node].main) ==> AboutToClear(s, s.tasks[t].node, k)
    ensures OneCopy(s', s.tasks[t].node, k)
  {
    var n, task, nd := s.tasks[t].node, s.tasks[t], s.nodes[s.tasks[t].node];
    assert HotMissed(s, t, k) && Flights.TaskOk(s, t) && Flights.NodeOk(s, n);
    if task.pc.First? && Writing(task.pc, k) {
      WriterClears(s, s', t, m, child, k);
    } else if AboutToClear(s, n, k) && nd.loads.mu != Some(t) {
      HolderStays(s, s', t, m, child, k);
    }
  }

  // A run step on the node itself.
  lemma HereKeeps(s: State, t: Tid, inp: Input, k: Key)
    requires Flights.Inv(s) && HotInv(s, k) && Enabled(s, Run(t, inp)) && OneCopy(s, s.tasks[t].node, k)
    ensures OneCopy(Apply(s, Run(t, inp)), s.tasks[t].node, k) <==> !Breaks(s, Run(t, inp), s.tasks[t].node, k)
  {
    var n := s.tasks[t].node;
    var m := Next(s.nodes[n], t, s.tasks[t], inp);
    assert Flights.TaskOk(s, t);
    Flights.RunIsFlightMove(s, t, inp, m);
    NextIsCopyMove(s.nodes[n], t, s.tasks[t], inp, m, k);
    if Breaks(s, Run(t, inp), n, k) {
      BreaksTwoCopies(s, t, inp, k);
    } else {
      MoverKeeps(s, Apply(s, Run(t, inp)), t, m, ChildOf(inp), k);
    }
  }

  lemma BreaksTwoCopies(s: State, t: Tid, inp: Input, k: Key)
    requires Flights.Inv(s) && Enabled(s, Run(t, inp)) && Breaks(s, Run(t, inp), s.tasks[t].node, k)
    ensures !OneCopy(Apply(s, Run(t, inp)), s.tasks[t].node, k)
  {
    assert Flights.TaskOk(s, t);
  }

  lemma StepBreaks(s: State, step: Step, n: Addr, k: Key)
    requires Flights.Inv(s) && HotInv(s, k) && Enabled(s, step) && OneCopy(s, n, k)
    ensures OneCopy(Apply(s, step), n, k) <==> !Breaks(s, step, n, k)
  {
    if step.Run? && s.tasks[step.t].node == n {
      HereKeeps(s, step.t, step.input, k);
    } else {
      ElsewhereKeeps(s, step, n, k);
    }
  }

  lemma {:induction false} HotInvariant(ss: seq<State>, steps: seq<Step>, k: Key, i: nat)
    requires IsRun(ss, steps) && Init(ss[0]) && i < |ss|
    ensures Flights.Inv(ss[i]) && HotInv(ss[i], k)
  {
    if i == 0 {
      Flights.InitInv(ss[0]);
    } else {
      HotInvariant(ss, steps, k, i - 1);
      Flights.StepKeepsInv(ss[i - 1], steps[i - 1]);
      StepKeepsHotInv(ss[i - 1], steps[i - 1], k);
    }
  }

  // The exact condition, for every run that starts with at most one copy: up to state i the node never
  // holds two copies of k if and only if none of the steps populates hot while k is in main and no
  // write is about to clear it. The condition can be checked before each population.
  lemma {:induction false} TwoCopiesExactly(ss: seq<State>, steps: seq<Step>, n: Addr, k: Key, i: nat)
    requires IsRun(ss, steps) && Init(ss[0]) && i < |ss|
    requires n in ss[0].nodes ==> !(k in ss[0].nodes[n].main && k in ss[0].nodes[n].hot)
    ensures (forall j :: 0 <= j <= i ==> OneCopy(ss[j], n, k))
       <==> (forall j :: 0 <= j < i ==> !Breaks(ss[j], steps[j], n, k))
  {
    if i > 0 {
      TwoCopiesExactly(ss, steps, n, k, i - 1);
      OneStepBreaks(ss, steps, n, k, i - 1);
      if forall j :: 0 <= j < i ==> OneCopy(ss[j], n, k) {
        assert OneCopy(ss[i - 1], n, k);
      } else {
        var b :| 0 <= b < i - 1 && Breaks(ss[b], steps[b], n, k);
        assert 0 <= b < i;
      }
    }
  }

  lemma OneStepBreaks(ss: seq<State>, steps: seq<Step>, n: Addr, k: Key, i: nat)
    requires IsRun(ss, steps) && Init(ss[0]) && i < |steps|
    ensures OneCopy(ss[i], n, k) ==> (OneCopy(ss[i + 1], n, k) <==> !Breaks(ss[i], steps[i], n, k))
  {
    HotInvariant(ss, steps, k, i);
    if OneCopy(ss[i], n, k) {
      StepBreaks(ss[i], steps[i], n, k);
    }
  }

  // ---------- no overlap, no second copy ----------

  // A Set takes the lock for k only while no load of k is in flight.
  ghost predicate Allowed(s: State, step: Step, k: Key) {
    step.Run? && step.t in s.tasks && s.tasks[step.t].node in s.nodes ==>
      var pc := s.tasks[step.t].pc;
      pc.Acquire? && pc.job.Write? && pc.job.key == k ==> k !in s.nodes[s.tasks[step.t].node].loads.m
  }

  // Then a flight that has missed main finds nothing there later either.
  ghost predicate MainMissed(s: State, t: Tid, k: Key)
    requires t in s.tasks
  {
    && s.tasks[t].node in s.nodes
    && var task, nd := s.tasks[t], s.nodes[s.tasks[t].node];
    && (Quiet.IsGet(task.op, k) && nd.caching && PastMain(task.pc) ==> k !in nd.main)
    && (Writing(task.pc, k) ==> k !in nd.loads.m)
  }

  predicate PastMain(pc: Pc) {
    MissedBoth(pc) || (pc.LookHot? && pc.again)
  }

  ghost predicate MainInv(s: State, k: Key) {
    forall t {:trigger MainMissed(s, t, k)} :: t in s.tasks ==> MainMissed(s, t, k)
  }

  // While some task leads a load of k on a node, no task of the node is writing k under the lock.
  lemma NobodyWrites(s: State, w: Tid, u: Tid, k: Key)
    requires Flights.Inv(s) && w in s.tasks && u in s.tasks && s.tasks[w].node == s.tasks[u].node && MainMissed(s, w, k)
    requires Quiet.IsGet(s.tasks[u].op, k) && PastMain(s.tasks[u].pc)
    ensures !Writing(s.tasks[w].pc, k)
  {
    assert Flights.TaskOk(s, u);
  }

  lemma MainMover(s: State, s': State, t: Tid, m: Move, child: Option<Tid>, k: Key)
    requires Flights.Inv(s) && MainInv(s, k) && t in s.tasks && s.tasks[t].node in s.nodes
    requires Flights.SpawnOk(s, m, child)
    requires s' == Moved(s, t, m, child) && CopyMove(s.nodes[s.tasks[t].node], s.tasks[t], m, k)
    requires Flights.FlightMove(s.nodes[s.tasks[t].node], m.node, t, s.tasks[t], m.task)
    requires s.tasks[t].pc.Acquire? && s.tasks[t].pc.job.Write? && s.tasks[t].pc.job.key == k ==>
      k !in s.nodes[s.tasks[t].node].loads.m
    ensures MainMissed(s', t, k)
  {
    assert MainMissed(s, t, k) && Flights.TaskOk(s, t);
  }

  // Another task leads the load: nobody else adds k to main.
  lemma MainLeader(s: State, s': State, t: Tid, m: Move, child: Option<Tid>, u: Tid, k: Key)
    requires Flights.Inv(s) && MainInv(s, k) && t in s.tasks && s.tasks[t].node in s.nodes
    requires Flights.SpawnOk(s, m, child)
    requires s' == Moved(s, t, m, child) && CopyMove(s.nodes[s.tasks[t].node], s.tasks[t], m, k)
    requires u in s.tasks && u != t && s.tasks[u].node == s.tasks[t].node
    requires Quiet.IsGet(s.tasks[u].op, k) && PastMain(s.tasks[u].pc)
    ensures MainMissed(s', u, k)
  {
    assert MainMissed(s, u, k) && MainMissed(s, t, k) && Flights.TaskOk(s, t) && Flights.TaskOk(s, u);
    if Quiet.IsGet(s.tasks[t].op, k) && Exits(s.tasks[t].pc) {
      Flights.OneLeader(s, t, u);
    }
    NobodyWrites(s, t, u, k);
  }

  // Another task writes k: no flight for k begins, since the writer holds the lock.
  lemma MainWriter(s: State, s': State, t: Tid, m: Move, child: Option<Tid>, u: Tid, k: Key)
    requires Flights.Inv(s) && MainInv(s, k) && t in s.tasks && s.tasks[t].node in s.nodes
    requires Flights.SpawnOk(s, m, child)
    requires s' == Moved(s, t, m, child) && CopyMove(s.nodes[s.tasks[t].node], s.tasks[t], m, k)
    requires Flights.FlightMove(s.nodes[s.tasks[t].node], m.node, t, s.tasks[t], m.task)
    requires u in s.tasks && u != t && !(Quiet.IsGet(s.tasks[u].op, k) && PastMain(s.tasks[u].pc))
    ensures MainMissed(s', u, k)
  {
    assert MainMissed(s, u, k) && Flights.TaskOk(s, t) && Flights.TaskOk(s, u);
  }

  // Another task moves on another node.
  lemma MainElsewhere(s: State, s': State, t: Tid, m: Move, child: Option<Tid>, u: Tid, k: Key)
    requires MainInv(s, k) && t in s.tasks && Flights.SpawnOk(s, m, child) && s' == Moved(s, t, m, child)
    requires u in s.tasks && u != t && s.tasks[u].node != s.tasks[t].node
    ensures MainMissed(s', u, k)
  {
    assert MainMissed(s, u, k);
  }

  lemma MainBystander(s: State, s': State, t: Tid, m: Move, child: Option<Tid>, u: Tid, k: Key)
    requires Flights.Inv(s) && MainInv(s, k) && t in s.tasks && s.tasks[t].node in s.nodes
    requires Flights.SpawnOk(s, m, child)
    requires s' == Moved(s, t, m, child) && CopyMove(s.nodes[s.tasks[t].node], s.tasks[t], m, k)
    requires Flights.FlightMove(s.nodes[s.tasks[t].node], m.node, t, s.tasks[t], m.task)
    requires u in s.tasks && u != t
    ensures MainMissed(s', u, k)
  {
    if !(Quiet.IsGet(s.tasks[u].op, k) && PastMain(s.tasks[u].pc)) {
      MainWriter(s, s', t, m, child, u, k);
    } else if s.tasks[u].node == s.tasks[t].node {
      MainLeader(s, s', t, m, child, u, k);
    } else {
      MainElsewhere(s, s', t, m, child, u, k);
    }
  }

  lemma StepKeepsMainInv(s: State, step: Step, k: Key)
    requires Flights.Inv(s) && MainInv(s, k) && Enabled(s, step) && Allowed(s, step, k)
    ensures MainInv(Apply(s, step), k)
  {
    var s' := Apply(s, step);
    if step.Run? {
      var t := step.t;
      var m := Next(s.nodes[s.tasks[t].node], t, s.tasks[t], step.input);
      assert Flights.TaskOk(s, t);
      Flights.RunIsFlightMove(s, t, step.input, m);
      NextIsCopyMove(s.nodes[s.tasks[t].node], t, s.tasks[t], step.input, m, k);
      MainMover(s, s', t, m, ChildOf(step.input), k);
      MovedMainInv(s, s', t, m, ChildOf(step.input), k);
    } else {
      forall u | u in s'.tasks
        ensures MainMissed(s', u, k)
      {
        if u in s.tasks {
          assert MainMissed(s, u, k);
        }
      }
    }
  }

  lemma MovedMainInv(s: State, s': State, t: Tid, m: Move, child: Option<Tid>, k: Key)
    requires Flights.Inv(s) && MainInv(s, k) && t in s.tasks && s.tasks[t].node in s.nodes
    requires Flights.SpawnOk(s, m, child)
    requires s' == Moved(s, t, m, child) && CopyMove(s.nodes[s.tasks[t].node], s.tasks[t], m, k)
    requires Flights.FlightMove(s.nodes[s.tasks[t].node], m.node, t, s.tasks[t], m.task) && MainMissed(s', t, k)
    ensures MainInv(s', k)
  {
    forall u | u in s'.tasks
      ensures MainMissed(s', u, k)
    {
      if u != t && u in s.tasks {
        MainBystander(s, s', t, m, child, u, k);
      }
    }
  }

  lemma {:induction false} MainInvariant(ss: seq<State>, steps: seq<Step>, k: Key, i: nat)
    requires IsRun(ss, steps) && Init(ss[0]) && i < |ss|
    requires forall j :: 0 <= j < |steps| ==> Allowed(ss[j], steps[j], k)
    ensures Flights.Inv(ss[i]) && MainInv(ss[i], k)
  {
    if i == 0 {
      Flights.InitInv(ss[0]);
    } else {
      MainInvariant(ss, steps, k, i - 1);
      Flights.StepKeepsInv(ss[i - 1], steps[i - 1]);
      StepKeepsMainInv(ss[i - 1], steps[i - 1], k);
    }
  }

  // Without overlap, whenever the node's lock is free no key is in both of its caches.
  lemma MainAndHotDisjoint(ss: seq<State>, steps: seq<Step>, k: Key, i: nat, n: Addr)
    requires IsRun(ss, steps) && Init(ss[0]) && i < |ss|
    requires n in ss[0].nodes ==> !(k in ss[0].nodes[n].main && k in ss[0].nodes[n].hot)
    requires forall j :: 0 <= j < |steps| ==> Allowed(ss[j], steps[j], k)
    requires n in ss[i].nodes && ss[i].nodes[n].loads.mu.None?
    ensures !(k in ss[i].nodes[n].main && k in ss[i].nodes[n].hot)
  {
    forall j | 0 <= j < i
      ensures !Breaks(ss[j], steps[j], n, k)
    {
      MainInvariant(ss, steps, k, j);
      assert Breaks(ss[j], steps[j], n, k) ==> MainMissed(ss[j], steps[j].t, k);
    }
    TwoCopiesExactly(ss, steps, n, k, i);
    assert OneCopy(ss[i], n, k);
  }
}
