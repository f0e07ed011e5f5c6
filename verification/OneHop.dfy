// When the peer lists agree on the owner of k, a Get of k crosses at most one peer hop, whatever
// fails, expires, is set or removed meanwhile: only other nodes ask the owner, and the owner asks
// nobody, so no Get waits for a request on its own node.
module OneHop {
  import opened Views
  import opened Protocol
  import Flights
  import OneLoad
  import Quiet
  import Requests

  predicate Straight(task: Task, k: Key, o: Addr) {
    Quiet.IsGet(task.op, k) && (task.pc.CallPeer? || task.pc.AwaitPeer?) ==> task.node != o && task.pc.peer == o
  }

  ghost predicate Inv(s: State, k: Key, o: Addr) {
    && (forall n {:trigger s.nodes[n]} :: n in s.nodes ==> OneLoad.RoutesTo(n, s.nodes[n].ring, k, o))
    && (forall t {:trigger Straight(s.tasks[t], k, o)} :: t in s.tasks ==> Straight(s.tasks[t], k, o))
  }

  // Peer lists may change as long as they keep agreeing on k.
  ghost predicate Allowed(step: Step, k: Key, o: Addr) {
    step.SetPeers? ==> OneLoad.RoutesTo(step.node, step.ring, k, o)
  }

  lemma NextIsStraight(nd: Node, t: Tid, task: Task, inp: Input, m: Move, k: Key, o: Addr)
    requires m == Next(nd, t, task, inp) && m.Move? && Straight(task, k, o)
    requires OneLoad.RoutesTo(task.node, nd.ring, k, o)
    ensures Straight(m.task, k, o) && m.node.ring == nd.ring
  {
    if InDo(task.pc) {
      DoIsStraight(nd, t, task, m, k, o);
    } else if task.op.Get? && !InLock(task.pc) && !task.pc.FanOut? {
      GetIsStraight(nd, task, inp, m, k, o);
    } else {
      RestIsStraight(nd, t, task, inp, m, k, o);
    }
  }

  lemma DoIsStraight(nd: Node, t: Tid, task: Task, m: Move, k: Key, o: Addr)
    requires HasKey(task.op) && InDo(task.pc) && m == NextFlight(nd, t, task) && m.Move?
    ensures Straight(m.task, k, o) && m.node.ring == nd.ring
  {
  }

  lemma RestIsStraight(nd: Node, t: Tid, task: Task, inp: Input, m: Move, k: Key, o: Addr)
    requires m == Next(nd, t, task, inp) && m.Move? && !InDo(task.pc)
    requires !task.op.Get? || InLock(task.pc) || task.pc.FanOut?
    ensures Straight(m.task, k, o) && m.node.ring == nd.ring
  {
  }

  lemma GetIsStraight(nd: Node, task: Task, inp: Input, m: Move, k: Key, o: Addr)
    requires task.op.Get? && Fits(task.pc, inp) && m == NextGet(nd, task, inp) && m.Move?
    requires Straight(task, k, o) && OneLoad.RoutesTo(task.node, nd.ring, k, o)
    ensures Straight(m.task, k, o) && m.node.ring == nd.ring
  {
    if task.pc.LookMain? || task.pc.LookHot? {
      LookIsStraight(nd, task, task.pc.LookMain?, task.pc.again, inp.now, m, k, o);
    } else {
      LoadIsStraight(nd, task, inp, m, k, o);
    }
  }

  lemma LookIsStraight(nd: Node, task: Task, inMain: bool, again: bool, now: Time, m: Move, k: Key, o: Addr)
    requires task.op.Get? && m == Look(nd, task, inMain, again, now)
    ensures Straight(m.task, k, o) && m.node.ring == nd.ring
  {
  }

  lemma LoadIsStraight(nd: Node, task: Task, inp: Input, m: Move, k: Key, o: Addr)
    requires task.op.Get? && Fits(task.pc, inp) && m == NextGet(nd, task, inp) && m.Move?
    requires !task.pc.LookMain? && !task.pc.LookHot?
    requires Straight(task, k, o) && OneLoad.RoutesTo(task.node, nd.ring, k, o)
    ensures Straight(m.task, k, o) && m.node.ring == nd.ring
  {
  }

  lemma StepKeepsInv(s: State, step: Step, k: Key, o: Addr)
    requires Flights.Inv(s) && Inv(s, k, o) && Enabled(s, step) && Allowed(step, k, o)
    ensures Inv(Apply(s, step), k, o)
  {
    if step.Run? {
      var m := Next(s.nodes[s.tasks[step.t].node], step.t, s.tasks[step.t], step.input);
      assert Straight(s.tasks[step.t], k, o);
      Flights.SpawnsFresh(s, step.t, step.input);
      NextIsStraight(s.nodes[s.tasks[step.t].node], step.t, s.tasks[step.t], step.input, m, k, o);
      MovedInv(s, step.t, m, ChildOf(step.input), k, o);
    }
  }

  lemma MovedInv(s: State, t: Tid, m: Move, child: Option<Tid>, k: Key, o: Addr)
    requires Inv(s, k, o) && t in s.tasks && s.tasks[t].node in s.nodes && Flights.SpawnOk(s, m, child)
    requires Straight(m.task, k, o) && m.node.ring == s.nodes[s.tasks[t].node].ring
    ensures Inv(Moved(s, t, m, child), k, o)
  {
    var s' := Moved(s, t, m, child);
    forall u | u in s'.tasks
      ensures Straight(s'.tasks[u], k, o)
    {
      if u in s.tasks && u != t {
        assert Straight(s.tasks[u], k, o);
      }
    }
  }

  lemma {:induction false} Invariant(ss: seq<State>, steps: seq<Step>, k: Key, o: Addr, i: nat)
    requires IsRun(ss, steps) && Init(ss[0]) && i < |ss|
    requires forall n :: n in ss[0].nodes ==> OneLoad.RoutesTo(n, ss[0].nodes[n].ring, k, o)
    requires forall j :: 0 <= j < |steps| ==> Allowed(steps[j], k, o)
    ensures Flights.Inv(ss[i]) && Requests.Inv(ss[i]) && Inv(ss[i], k, o)
  {
    if i == 0 {
      Flights.InitInv(ss[0]);
    } else {
      Invariant(ss, steps, k, o, i - 1);
      Flights.StepKeepsInv(ss[i - 1], steps[i - 1]);
      Requests.StepKeepsInv(ss[i - 1], steps[i - 1]);
      StepKeepsInv(ss[i - 1], steps[i - 1], k, o);
    }
  }

  // A Get of k that waits for a peer runs elsewhere and waits for a request at the owner, and that
  // request neither asks nor waits for any further peer.
  lemma AtMostOneHop(ss: seq<State>, steps: seq<Step>, k: Key, o: Addr, i: nat, t: Tid)
    requires IsRun(ss, steps) && Init(ss[0]) && i < |ss|
    requires forall n :: n in ss[0].nodes ==> OneLoad.RoutesTo(n, ss[0].nodes[n].ring, k, o)
    requires forall j :: 0 <= j < |steps| ==> Allowed(steps[j], k, o)
    requires t in ss[i].tasks && Quiet.IsGet(ss[i].tasks[t].op, k) && ss[i].tasks[t].pc.AwaitPeer?
    ensures ss[i].tasks[t].node != o
    ensures var c := ss[i].tasks[t].pc.child;
      c in ss[i].tasks && ss[i].tasks[c].node == o && !ss[i].tasks[c].pc.CallPeer? && !ss[i].tasks[c].pc.AwaitPeer?
  {
    Invariant(ss, steps, k, o, i);
    var s, c := ss[i], ss[i].tasks[t].pc.child;
    assert Straight(s.tasks[t], k, o) && Requests.KidsOk(s.tasks, s.tasks[t]);
    assert Straight(s.tasks[c], k, o);
  }
}
