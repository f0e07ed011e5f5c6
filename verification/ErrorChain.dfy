// Errors keep their class on the way back: along any chain of peers that answer and flights that
// are shared, a not-found error stays not-found, any other error arrives as a remote-call error,
// and no node on the way runs its own getter.
module ErrorChain {
  import opened Views
  import opened Wire
  import opened Protocol
  import Flights

  // Answers after which the caller does not load by itself.
  predicate Decides(r: Result) {
    r.Value? || (r.Fail? && Final(r.error))
  }

  predicate CarriesOut(pc: Pc, r: Result) {
    (pc.Store? || pc.Signal? || pc.Delete? || pc.Ended?) && pc.outcome == Return(r)
  }

  // Where a task that got this answer from its peer can be.
  predicate AfterAnswer(pc: Pc, r: Result) {
    match r
    case Value(v) => pc == PopHot(v) || pc == CountPeer(v) || CarriesOut(pc, r)
    case Fail(e) => pc == PeerFailed(e) || CarriesOut(pc, r)
    case Done => false
  }

  predicate BeforeGetter(pc: Pc) {
    !pc.CountLocal? && !pc.PopMain? && !pc.Store? && !pc.Signal? && !pc.Delete? && !pc.Ended?
  }

  ghost predicate NeverLoaded(log: seq<LoadRecord>, t: Tid) {
    forall i :: 0 <= i < |log| ==> log[i].task != t
  }

  ghost predicate LinkOk(s: State, t: Tid)
    requires t in s.tasks
  {
    var task := s.tasks[t];
    && (BeforeGetter(task.pc) ==> NeverLoaded(s.log, t))
    && (task.op.Get? && task.trail.joined.Some? ==>
          var c := task.trail.joined.value;
          && NeverLoaded(s.log, t)
          && (task.pc == Wait(c)
              || (task.pc.Ended? && c in s.tasks && (s.tasks[c].pc.Delete? || s.tasks[c].pc.Ended?)
                  && task.pc.outcome == Return(Flights.Seen(s.tasks[c].pc.outcome)))))
    && (task.op.Get? && task.trail.via.Some? ==>
          var c := task.trail.via.value;
          && c in s.tasks && s.tasks[c].pc.Ended?
          && var r := OverWire(s.tasks[c].pc.outcome);
             Decides(r) ==> AfterAnswer(task.pc, r) && NeverLoaded(s.log, t))
  }

  ghost predicate Inv(s: State) {
    && (forall t {:trigger LinkOk(s, t)} :: t in s.tasks ==> LinkOk(s, t))
    && (forall i :: 0 <= i < |s.log| ==> s.log[i].task in s.tasks)
  }

  // ---------- one move ----------

  ghost predicate LinkMove(task: Task, inp: Input, m: Move)
    requires m.Move?
  {
    var pc, pc', tr, tr' := task.pc, m.task.pc, task.trail, m.task.trail;
    && m.task.op == task.op && m.task.node == task.node
    && (BeforeGetter(pc') ==> BeforeGetter(pc) && m.load.None?)
    && (m.load.Some? ==> pc.RunGetter?)
    && (task.op.Get? ==>
          && (tr'.joined == tr.joined || (pc.Enter? && pc'.Wait? && tr'.joined == Some(pc'.call)))
          && (pc.Wait? ==> pc'.Ended?)
          && (tr'.via == tr.via || (pc.AwaitPeer? && inp.Answer? && tr'.via == Some(inp.child)
                                    && (Decides(inp.result) ==> AfterAnswer(pc', inp.result))))
          && (forall r :: Decides(r) && AfterAnswer(pc, r) ==>
                AfterAnswer(pc', r) && m.load.None? && tr'.via == tr.via))
  }

  lemma NextIsLinkMove(nd: Node, t: Tid, task: Task, inp: Input, m: Move)
    requires m == Next(nd, t, task, inp) && m.Move? && Flights.Shape(task.op, task.pc)
    ensures LinkMove(task, inp, m)
  {
    if task.op.Get? {
      if InDo(task.pc) {
        DoIsLinkMove(nd, t, task, m);
      } else {
        GetIsLinkMove(nd, task, inp, m);
      }
    } else {
      OtherIsLinkMove(nd, t, task, inp, m);
    }
  }

  lemma DoIsLinkMove(nd: Node, t: Tid, task: Task, m: Move)
    requires task.op.Get? && InDo(task.pc) && m == NextFlight(nd, t, task) && m.Move?
    ensures LinkMove(task, Go, m)
  {
  }

  lemma GetIsLinkMove(nd: Node, task: Task, inp: Input, m: Move)
    requires task.op.Get? && Fits(task.pc, inp) && !InDo(task.pc) && m == NextGet(nd, task, inp) && m.Move?
    ensures LinkMove(task, inp, m)
  {
    if task.pc.LookMain? || task.pc.LookHot? {
      LookIsLinkMove(nd, task, task.pc.LookMain?, task.pc.again, inp, m);
    } else if AsksPeer(task.pc) {
      PeerIsLinkMove(nd, task, inp, m);
    } else {
      LocalIsLinkMove(nd, task, inp, m);
    }
  }

  predicate AsksPeer(pc: Pc) {
    pc.CallPeer? || pc.AwaitPeer? || pc.PopHot? || pc.CountPeer? || pc.PeerFailed?
  }

  lemma LookIsLinkMove(nd: Node, task: Task, inMain: bool, again: bool, inp: Input, m: Move)
    requires task.op.Get? && inp.At? && m == Look(nd, task, inMain, again, inp.now)
    requires task.pc == if inMain then LookMain(again) else LookHot(again)
    ensures LinkMove(task, inp, m)
  {
  }

  lemma PeerIsLinkMove(nd: Node, task: Task, inp: Input, m: Move)
    requires task.op.Get? && Fits(task.pc, inp) && AsksPeer(task.pc) && m == NextGet(nd, task, inp) && m.Move?
    ensures LinkMove(task, inp, m)
  {
  }

  lemma LocalIsLinkMove(nd: Node, task: Task, inp: Input, m: Move)
    requires task.op.Get? && Fits(task.pc, inp) && !InDo(task.pc) && m == NextGet(nd, task, inp) && m.Move?
    requires !AsksPeer(task.pc) && !task.pc.LookMain? && !task.pc.LookHot?
    ensures LinkMove(task, inp, m)
  {
  }

  lemma OtherIsLinkMove(nd: Node, t: Tid, task: Task, inp: Input, m: Move)
    requires !task.op.Get? && m == Next(nd, t, task, inp) && m.Move? && Flights.Shape(task.op, task.pc)
    ensures LinkMove(task, inp, m)
  {
  }

  // ---------- the whole cluster ----------

  // The part of the state that a link of another task depends on: ended tasks stay as they are.
  ghost predicate Later(s: State, s': State) {
    && (forall t :: t in s.tasks ==> t in s'.tasks)
    && (forall t :: t in s.tasks && s.tasks[t].pc.Ended? ==> s'.tasks[t] == s.tasks[t])
    && (forall t :: t in s.tasks && s.tasks[t].pc.Delete? ==>
          (s'.tasks[t].pc.Delete? || s'.tasks[t].pc.Ended?) && s'.tasks[t].pc.outcome == s.tasks[t].pc.outcome)
  }

  lemma BystanderLinkOk(s: State, s': State, u: Tid)
    requires u in s.tasks && LinkOk(s, u) && Later(s, s') && s'.tasks[u] == s.tasks[u]
    requires NeverLoaded(s.log, u) ==> NeverLoaded(s'.log, u)
    ensures LinkOk(s', u)
  {
  }

  lemma MoverLinkOk(s: State, s': State, t: Tid, inp: Input, m: Move)
    requires t in s.tasks && LinkOk(s, t) && Later(s, s') && t in s'.tasks && m.Move? && s'.tasks[t] == m.task
    requires LinkMove(s.tasks[t], inp, m) && !s.tasks[t].pc.Ended?
    requires m.load.None? ==> s'.log == s.log
    requires inp.Answer? && s.tasks[t].pc.AwaitPeer? && s.tasks[t].op.Get? ==>
      inp.child in s.tasks && s.tasks[inp.child].pc.Ended? && inp.result == OverWire(s.tasks[inp.child].pc.outcome)
    requires s.tasks[t].op.Get? && s.tasks[t].pc.Wait? ==>
      var c := s.tasks[t].pc.call;
      c in s.tasks && (s.tasks[c].pc.Delete? || s.tasks[c].pc.Ended?)
      && m.task.pc == Ended(Return(Flights.Seen(s.tasks[c].pc.outcome)))
    ensures LinkOk(s', t)
  {
  }

  lemma WaitResult(s: State, t: Tid, inp: Input)
    requires Flights.Inv(s) && Enabled(s, Run(t, inp)) && s.tasks[t].op.Get? && s.tasks[t].pc.Wait?
    ensures var c, m := s.tasks[t].pc.call, Next(s.nodes[s.tasks[t].node], t, s.tasks[t], inp);
      c in s.tasks && (s.tasks[c].pc.Delete? || s.tasks[c].pc.Ended?)
      && m.task.pc == Ended(Return(Flights.Seen(s.tasks[c].pc.outcome)))
  {
    Flights.JoinedResult(s, t);
  }

  lemma DeleteEnds(nd: Node, t: Tid, task: Task, inp: Input, m: Move)
    requires m == Next(nd, t, task, inp) && m.Move?
    ensures !task.pc.Ended? && (task.pc.Delete? ==> m.task.pc == Ended(task.pc.outcome))
  {
  }

  lemma MovedIsLater(s: State, t: Tid, m: Move, child: Option<Tid>)
    requires t in s.tasks && s.tasks[t].node in s.nodes && Flights.SpawnOk(s, m, child)
    requires !s.tasks[t].pc.Ended? && (s.tasks[t].pc.Delete? ==> m.task.pc == Ended(s.tasks[t].pc.outcome))
    ensures Later(s, Moved(s, t, m, child))
  {
  }

  lemma RunKeepsInv(s: State, t: Tid, inp: Input)
    requires Flights.Inv(s) && Inv(s) && Enabled(s, Run(t, inp))
    ensures Inv(Apply(s, Run(t, inp)))
  {
    var s' := Apply(s, Run(t, inp));
    var m := Next(s.nodes[s.tasks[t].node], t, s.tasks[t], inp);
    assert Flights.TaskOk(s, t) && LinkOk(s, t);
    Flights.SpawnsFresh(s, t, inp);
    DeleteEnds(s.nodes[s.tasks[t].node], t, s.tasks[t], inp, m);
    MovedIsLater(s, t, m, ChildOf(inp));
    NextIsLinkMove(s.nodes[s.tasks[t].node], t, s.tasks[t], inp, m);
    if s.tasks[t].op.Get? && s.tasks[t].pc.Wait? {
      WaitResult(s, t, inp);
    }
    MoverLinkOk(s, s', t, inp, m);
    MovedInv(s, s', t, m, ChildOf(inp));
  }

  lemma MovedInv(s: State, s': State, t: Tid, m: Move, child: Option<Tid>)
    requires Inv(s) && t in s.tasks && Flights.SpawnOk(s, m, child) && s' == Moved(s, t, m, child)
    requires Later(s, s') && LinkOk(s', t)
    ensures Inv(s')
  {
    forall u | u in s'.tasks
      ensures LinkOk(s', u)
    {
      if u != t {
        if u in s.tasks {
          assert LinkOk(s, u);
          BystanderLinkOk(s, s', u);
        }
      }
    }
  }

  lemma QuietKeepsInv(s: State, step: Step)
    requires Inv(s) && Enabled(s, step) && !step.Run?
    ensures Inv(Apply(s, step))
  {
    var s' := Apply(s, step);
    forall u | u in s'.tasks
      ensures LinkOk(s', u)
    {
      if u in s.tasks {
        assert LinkOk(s, u);
        BystanderLinkOk(s, s', u);
      }
    }
  }

  lemma {:induction false} Invariant(ss: seq<State>, steps: seq<Step>, i: nat)
    requires IsRun(ss, steps) && Init(ss[0]) && i < |ss|
    ensures Flights.Inv(ss[i]) && Inv(ss[i])
  {
    if i == 0 {
      Flights.InitInv(ss[0]);
    } else {
      Invariant(ss, steps, i - 1);
      Flights.StepKeepsInv(ss[i - 1], steps[i - 1]);
      if steps[i - 1].Run? {
        RunKeepsInv(ss[i - 1], steps[i - 1].t, steps[i - 1].input);
      } else {
        QuietKeepsInv(ss[i - 1], steps[i - 1]);
      }
    }
  }

  // ---------- chains ----------

  // Task a got its result from task b: as its peer's answer, or by joining its flight.
  ghost predicate Link(s: State, a: Tid, b: Tid) {
    && a in s.tasks && b in s.tasks && s.tasks[a].op.Get? && s.tasks[a].pc.Ended? && s.tasks[b].pc.Ended?
    && (s.tasks[a].trail.via == Some(b) || s.tasks[a].trail.joined == Some(b))
  }

  ghost predicate Chain(s: State, path: seq<Tid>) {
    && path != []
    && path[|path| - 1] in s.tasks && s.tasks[path[|path| - 1]].pc.Ended?
    && forall i :: 0 <= i < |path| - 1 ==> Link(s, path[i], path[i + 1])
  }

  ghost predicate Fails(s: State, t: Tid, e: Error) {
    t in s.tasks && s.tasks[t].pc == Ended(Return(Fail(e)))
  }

  // Whether some step of the chain crosses from one node to another.
  ghost predicate Crosses(s: State, path: seq<Tid>) {
    exists i :: 0 <= i < |path| - 1 && path[i] in s.tasks && s.tasks[path[i]].trail.via == Some(path[i + 1])
  }

  lemma CrossesFirstOrLater(s: State, path: seq<Tid>)
    requires |path| > 1 && path[0] in s.tasks
    ensures Crosses(s, path) <==> s.tasks[path[0]].trail.via == Some(path[1]) || Crosses(s, path[1..])
  {
    var rest := path[1..];
    if Crosses(s, path) {
      var i :| 0 <= i < |path| - 1 && path[i] in s.tasks && s.tasks[path[i]].trail.via == Some(path[i + 1]);
      assert i > 0 ==> rest[i - 1] == path[i] && rest[i] == path[i + 1];
    }
    if Crosses(s, rest) {
      var i :| 0 <= i < |rest| - 1 && rest[i] in s.tasks && s.tasks[rest[i]].trail.via == Some(rest[i + 1]);
      assert path[i + 1] == rest[i] && path[i + 2] == rest[i + 1];
    }
  }

  lemma {:induction false} ErrorTravels(s: State, path: seq<Tid>, e: Error)
    requires Inv(s) && Chain(s, path) && Fails(s, path[|path| - 1], e)
    ensures e == NotFound ==> Fails(s, path[0], NotFound)
    ensures e != NotFound && Crosses(s, path) ==> Fails(s, path[0], RemoteCall)
    ensures !Crosses(s, path) ==> Fails(s, path[0], e)
    ensures forall i :: 0 <= i < |path| - 1 ==> NeverLoaded(s.log, path[i])
    decreases |path|
  {
    if |path| > 1 {
      var a, rest := path[0], path[1..];
      assert Link(s, path[0], path[1]);
      assert Chain(s, rest) by {
        forall i | 0 <= i < |rest| - 1
          ensures Link(s, rest[i], rest[i + 1])
        {
          assert Link(s, path[i + 1], path[i + 2]);
        }
      }
      ErrorTravels(s, rest, e);
      assert LinkOk(s, a);
      CrossesFirstOrLater(s, path);
      forall i | 0 <= i < |path| - 1
        ensures NeverLoaded(s.log, path[i])
      {
        if i > 0 {
          assert path[i] == rest[i - 1];
        }
      }
    }
  }

  // In every reachable state.
  lemma ErrorClassSurvives(ss: seq<State>, steps: seq<Step>, i: nat, path: seq<Tid>, e: Error)
    requires IsRun(ss, steps) && Init(ss[0]) && i < |ss|
    requires Chain(ss[i], path) && Fails(ss[i], path[|path| - 1], e)
    ensures e == NotFound ==> Fails(ss[i], path[0], NotFound)
    ensures e != NotFound && Crosses(ss[i], path) ==> Fails(ss[i], path[0], RemoteCall)
    ensures forall j :: 0 <= j < |path| - 1 ==> NeverLoaded(ss[i].log, path[j])
  {
    Invariant(ss, steps, i);
    ErrorTravels(ss[i], path, e);
  }
}
