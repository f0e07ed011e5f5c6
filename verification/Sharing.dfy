// What singleflight promises: a caller that joins a flight overlaps its leader, and both see the
// one result of that flight; a leader that panics leaves an error to the others and frees the key.
module Sharing {
  import opened Views
  import opened Wire
  import opened Protocol
  import Flights
  import Runs

  // Step i is the one at which t finds the call of c in the map: at that moment c is between its
  // own entry and its deletion, on the same node, for the same key and kind of operation.
  ghost predicate JoinsAt(ss: seq<State>, steps: seq<Step>, i: nat, t: Tid, c: Tid)
    requires |ss| == |steps| + 1 && i < |steps|
  {
    var s := ss[i];
    && steps[i] == Run(t, Go)
    && t in s.tasks && c in s.tasks && s.tasks[t].pc.Enter?
    && s.tasks[c].node == s.tasks[t].node && Flights.Kind(s.tasks[c].op) == Flights.Kind(s.tasks[t].op)
    && HasKey(s.tasks[t].op) && HasKey(s.tasks[c].op) && s.tasks[c].op.key == s.tasks[t].op.key
    && Flights.Leads(s.tasks[c].op, s.tasks[c].pc)
  }

  predicate Decided(pc: Pc) {
    pc.Delete? || pc.Ended?
  }

  // A task that joined c waits for it or has its result.
  ghost predicate JoinOk(s: State, t: Tid)
    requires t in s.tasks
  {
    && (s.tasks[t].pc.Wait? ==> s.tasks[t].trail.joined == Some(s.tasks[t].pc.call))
    && (s.tasks[t].trail.joined.Some? ==>
          var c := s.tasks[t].trail.joined.value;
          s.tasks[t].pc == Wait(c)
          || (s.tasks[t].pc.Ended? && c in s.tasks && Decided(s.tasks[c].pc)
              && s.tasks[t].pc.outcome == Return(Flights.Seen(s.tasks[c].pc.outcome))))
  }

  ghost predicate Inv(s: State) {
    forall t {:trigger JoinOk(s, t)} :: t in s.tasks ==> JoinOk(s, t)
  }

  // ---------- one move ----------

  ghost predicate JoinMove(task: Task, m: Move)
    requires m.Move?
  {
    && (m.task.trail.joined == task.trail.joined
        || (task.pc.Enter? && m.task.pc.Wait? && m.task.trail.joined == Some(m.task.pc.call)))
    && (task.pc.Enter? && m.task.pc.Wait? ==> m.task.trail.joined == Some(m.task.pc.call))
    && (task.pc.Wait? ==> m.task.pc.Ended?)
    && (m.task.pc.Wait? ==> task.pc.Enter?)
    && (task.pc.Delete? ==> m.task.pc == Ended(task.pc.outcome))
    && !task.pc.Ended?
  }

  lemma NextIsJoinMove(nd: Node, t: Tid, task: Task, inp: Input, m: Move)
    requires m == Next(nd, t, task, inp) && m.Move?
    ensures JoinMove(task, m)
  {
    if InDo(task.pc) {
    } else if InLock(task.pc) {
    } else if task.pc.FanOut? {
    } else if task.op.Get? {
      GetIsJoinMove(nd, task, inp, m);
    } else if task.op.Set? || task.op.Remove? {
    } else {
    }
  }

  lemma GetIsJoinMove(nd: Node, task: Task, inp: Input, m: Move)
    requires task.op.Get? && Fits(task.pc, inp) && !InDo(task.pc) && m == NextGet(nd, task, inp) && m.Move?
    ensures JoinMove(task, m)
  {
    match task.pc
    case Begin =>
    case LookMain(_) =>
    case LookHot(_) =>
    case CountHit(_, _) =>
    case CallPeer(_) =>
    case AwaitPeer(_, _) =>
    case PeerFailed(_) =>
    case CountLocal(_) =>
    case _ =>
  }

  // ---------- the invariant ----------

  lemma MovedJoinOk(s: State, s': State, t: Tid, u: Tid, m: Move, child: Option<Tid>)
    requires t in s.tasks && u in s.tasks && Flights.SpawnOk(s, m, child) && s' == Moved(s, t, m, child)
    requires JoinMove(s.tasks[t], m) && JoinOk(s, u)
    requires s.tasks[t].pc.Wait? ==>
      var c := s.tasks[t].pc.call;
      c in s.tasks && Decided(s.tasks[c].pc) && m.task.pc == Ended(Return(Flights.Seen(s.tasks[c].pc.outcome)))
    ensures JoinOk(s', u)
  {
  }

  lemma StepKeepsInv(s: State, step: Step)
    requires Flights.Inv(s) && Inv(s) && Enabled(s, step)
    ensures Inv(Apply(s, step))
  {
    var s' := Apply(s, step);
    if step.Run? {
      var t := step.t;
      var m := Next(s.nodes[s.tasks[t].node], t, s.tasks[t], step.input);
      Flights.SpawnsFresh(s, t, step.input);
      NextIsJoinMove(s.nodes[s.tasks[t].node], t, s.tasks[t], step.input, m);
      if s.tasks[t].pc.Wait? {
        Flights.JoinedResult(s, t);
      }
      MovedInv(s, s', t, m, ChildOf(step.input));
    } else {
      forall u | u in s'.tasks
        ensures JoinOk(s', u)
      {
        if u in s.tasks {
          assert JoinOk(s, u);
        }
      }
    }
  }

  lemma MovedInv(s: State, s': State, t: Tid, m: Move, child: Option<Tid>)
    requires Inv(s) && t in s.tasks && Flights.SpawnOk(s, m, child) && s' == Moved(s, t, m, child)
    requires JoinMove(s.tasks[t], m)
    requires s.tasks[t].pc.Wait? ==>
      var c := s.tasks[t].pc.call;
      c in s.tasks && Decided(s.tasks[c].pc) && m.task.pc == Ended(Return(Flights.Seen(s.tasks[c].pc.outcome)))
    ensures Inv(s')
  {
    forall u | u in s'.tasks
      ensures JoinOk(s', u)
    {
      if u in s.tasks {
        assert JoinOk(s, u);
        MovedJoinOk(s, s', t, u, m, child);
      }
    }
  }

  lemma {:induction false} Invariant(ss: seq<State>, steps: seq<Step>, i: nat)
    requires IsRun(ss, steps) && Init(ss[0]) && i < |ss|
    ensures Flights.Inv(ss[i]) && Inv(ss[i])
  {
    if i == 0 {
      Flights.InitInv(ss[0]);
    } else {
      Invariant(ss, steps, i - 1);
      Flights.StepKeepsInv(ss[i - 1], steps[i - 1]);
      StepKeepsInv(ss[i - 1], steps[i - 1]);
    }
  }

  // ---------- the moment of joining ----------

  lemma EnteringJoins(s: State, t: Tid, inp: Input)
    requires Flights.Inv(s) && Enabled(s, Run(t, inp)) && s.tasks[t].pc.Enter?
    requires var m := Next(s.nodes[s.tasks[t].node], t, s.tasks[t], inp); m.task.pc.Wait?
    ensures var c := Next(s.nodes[s.tasks[t].node], t, s.tasks[t], inp).task.pc.call;
      inp == Go && HasKey(s.tasks[t].op)
      && Flights.MemberOk(s, s.tasks[t].node, Flights.Kind(s.tasks[t].op), c)
      && s.tasks[c].op.key == s.tasks[t].op.key && Flights.Leads(s.tasks[c].op, s.tasks[c].pc)
  {
    assert Flights.TaskOk(s, t) && Flights.NodeOk(s, s.tasks[t].node);
  }

  lemma {:induction false} JoinedSomewhere(ss: seq<State>, steps: seq<Step>, j: nat, t: Tid) returns (i: nat)
    requires IsRun(ss, steps) && Init(ss[0]) && j < |ss|
    requires t in ss[j].tasks && ss[j].tasks[t].trail.joined.Some?
    ensures i < j && JoinsAt(ss, steps, i, t, ss[j].tasks[t].trail.joined.value)
  {
    assert ss[j] == Apply(ss[j - 1], steps[j - 1]);
    Invariant(ss, steps, j - 1);
    if t in ss[j - 1].tasks && ss[j - 1].tasks[t].trail.joined == ss[j].tasks[t].trail.joined {
      i := JoinedSomewhere(ss, steps, j - 1, t);
    } else {
      i := j - 1;
      JoinedJustNow(ss[i], steps[i], t);
    }
  }

  lemma JoinedJustNow(s: State, step: Step, t: Tid)
    requires Flights.Inv(s) && Enabled(s, step)
    requires var s' := Apply(s, step);
      t in s'.tasks && s'.tasks[t].trail.joined.Some?
      && !(t in s.tasks && s.tasks[t].trail.joined == s'.tasks[t].trail.joined)
    ensures JoinsAt([s, Apply(s, step)], [step], 0, t, Apply(s, step).tasks[t].trail.joined.value)
  {
    var u := step.t;
    var m := Next(s.nodes[s.tasks[u].node], u, s.tasks[u], step.input);
    Flights.SpawnsFresh(s, u, step.input);
    NextIsJoinMove(s.nodes[s.tasks[u].node], u, s.tasks[u], step.input, m);
    EnteringJoins(s, t, step.input);
  }

  // The main result: whoever joined a flight overlapped its leader and returned the result of that
  // flight, which for a leader that panicked is the error preset for that case.
  lemma SharedResult(ss: seq<State>, steps: seq<Step>, j: nat, t: Tid) returns (i: nat, c: Tid)
    requires IsRun(ss, steps) && Init(ss[0]) && j < |ss|
    requires t in ss[j].tasks && ss[j].tasks[t].trail.joined.Some? && ss[j].tasks[t].pc.Ended?
    ensures i < j && JoinsAt(ss, steps, i, t, c)
    ensures c in ss[j].tasks && Decided(ss[j].tasks[c].pc)
    ensures ss[j].tasks[t].pc.outcome == Return(Flights.Seen(ss[j].tasks[c].pc.outcome))
    ensures ss[j].tasks[c].pc.outcome.Panic? ==> ss[j].tasks[t].pc.outcome == Return(Fail(LeaderPanicked))
  {
    Invariant(ss, steps, j);
    assert JoinOk(ss[j], t);
    c := ss[j].tasks[t].trail.joined.value;
    i := JoinedSomewhere(ss, steps, j, t);
  }

  // ---------- one execution at a time, and freed keys ----------

  // Two tasks of a node never run the function for the same key of the same group together.
  lemma OneExecution(ss: seq<State>, steps: seq<Step>, j: nat, t: Tid, u: Tid)
    requires IsRun(ss, steps) && Init(ss[0]) && j < |ss| && t in ss[j].tasks && u in ss[j].tasks
    requires var a, b := ss[j].tasks[t], ss[j].tasks[u];
      && a.node == b.node && Flights.Kind(a.op) == Flights.Kind(b.op)
      && Flights.Leads(a.op, a.pc) && Flights.Leads(b.op, b.pc)
      && a.op.key == b.op.key
    ensures t == u
  {
    Invariant(ss, steps, j);
    assert Flights.TaskOk(ss[j], t) && Flights.TaskOk(ss[j], u);
  }

  // The calls in the map are being led; in particular a call whose leader returned or panicked is
  // not in the map, so the next caller leads a new flight.
  lemma KeyIsFreed(ss: seq<State>, steps: seq<Step>, j: nat, n: Addr, op: Op)
    requires IsRun(ss, steps) && Init(ss[0]) && j < |ss| && n in ss[j].nodes && HasKey(op)
    requires op.key in GroupOf(ss[j].nodes[n], op).m
    ensures var c := GroupOf(ss[j].nodes[n], op).m[op.key];
      c in ss[j].tasks && !ss[j].tasks[c].pc.Ended? && Flights.Leads(ss[j].tasks[c].op, ss[j].tasks[c].pc)
  {
    Invariant(ss, steps, j);
    assert Flights.NodeOk(ss[j], n);
  }

  // ---------- a Set that joins another ----------

  // The task has got past the door of its flight without joining anyone.
  predicate Unjoined(task: Task) {
    task.trail.joined.None? && !task.pc.Begin? && !task.pc.Enter? && !task.pc.Wait?
  }

  lemma UnjoinedStays(nd: Node, t: Tid, task: Task, inp: Input, m: Move)
    requires m == Next(nd, t, task, inp) && m.Move? && (task.op.Set? || task.op.Remove?) && Unjoined(task)
    requires Flights.Shape(task.op, task.pc) && Flights.LockFits(task.op, task.pc)
    ensures Unjoined(m.task) && m.task.op == task.op
  {
    NextIsJoinMove(nd, t, task, inp, m);
  }

  lemma {:induction false} UnjoinedForGood(ss: seq<State>, steps: seq<Step>, i: nat, j: nat, t: Tid)
    requires IsRun(ss, steps) && Init(ss[0]) && i <= j < |ss| && t in ss[i].tasks
    requires (ss[i].tasks[t].op.Set? || ss[i].tasks[t].op.Remove?) && Unjoined(ss[i].tasks[t])
    ensures t in ss[j].tasks && Unjoined(ss[j].tasks[t])
    decreases j - i
  {
    if i < j {
      Invariant(ss, steps, i);
      assert Flights.TaskOk(ss[i], t);
      assert ss[i + 1] == Apply(ss[i], steps[i]);
      if steps[i].Run? && steps[i].t == t {
        var m := Next(ss[i].nodes[ss[i].tasks[t].node], t, ss[i].tasks[t], steps[i].input);
        UnjoinedStays(ss[i].nodes[ss[i].tasks[t].node], t, ss[i].tasks[t], steps[i].input, m);
      }
      UnjoinedForGood(ss, steps, i + 1, j, t);
    }
  }

  // What the step leaves alone: every cache, and no request is sent.
  ghost predicate TouchesNothing(s: State, s': State) {
    && s'.tasks.Keys == s.tasks.Keys && s'.nodes.Keys == s.nodes.Keys
    && forall n :: n in s.nodes ==> s'.nodes[n].main == s.nodes[n].main && s'.nodes[n].hot == s.nodes[n].hot
  }

  lemma WaitingTouchesNothing(s: State, t: Tid, inp: Input)
    requires Enabled(s, Run(t, inp)) && (s.tasks[t].op.Set? || s.tasks[t].op.Remove?)
    requires s.tasks[t].pc.Begin? || s.tasks[t].pc.Enter? || s.tasks[t].pc.Wait?
    ensures TouchesNothing(s, Apply(s, Run(t, inp)))
  {
  }

  // A Set that joins another caller's flight returns that caller's result, and none of its own
  // steps stores its value or tells a peer about it.
  lemma JoinedSetStoresNothing(ss: seq<State>, steps: seq<Step>, i: nat, j: nat, t: Tid)
    requires IsRun(ss, steps) && Init(ss[0]) && i < j < |ss|
    requires t in ss[j].tasks && ss[j].tasks[t].trail.joined.Some?
    requires t in ss[i].tasks && (ss[i].tasks[t].op.Set? || ss[i].tasks[t].op.Remove?) && steps[i].Run?
    requires steps[i].t == t
    ensures TouchesNothing(ss[i], ss[i + 1])
  {
    Invariant(ss, steps, i);
    assert JoinOk(ss[i], t);
    assert Enabled(ss[i], steps[i]) && ss[i + 1] == Apply(ss[i], steps[i]);
    if Unjoined(ss[i].tasks[t]) {
      UnjoinedForGood(ss, steps, i, j, t);
    } else {
      WaitingTouchesNothing(ss[i], t, steps[i].input);
    }
  }

  // ---------- exactly when a Set that returned nil has stored its value ----------

  // The step is the one at which task t looks its key up in the map of in-flight Sets.
  ghost predicate Enters(s: State, step: Step, t: Tid) {
    && step == Run(t, Go)
    && t in s.tasks && s.tasks[t].op.Set? && s.tasks[t].pc.Enter? && s.tasks[t].node in s.nodes
  }

  // The guard of singleflight at that step: no Set of the key is in flight on the node.
  ghost predicate FindsKeyFree(s: State, t: Tid)
    requires t in s.tasks && s.tasks[t].op.Set? && s.tasks[t].node in s.nodes
  {
    s.tasks[t].op.key !in s.nodes[s.tasks[t].node].sets.m
  }

  // The step from s to s' is the one at which task t puts its value into the main cache of its node.
  ghost predicate Stores(s: State, step: Step, s': State, t: Tid) {
    && step == Run(t, Go)
    && t in s.tasks && s.tasks[t].op.Set? && s.tasks[t].pc.First?
    && var task := s.tasks[t];
       && task.pc.job == Write(task.op.key, task.op.view)
       && task.node in s.nodes && task.node in s'.nodes
       && s'.nodes[task.node].main == s.nodes[task.node].main[task.op.key := task.op.view]
  }

  // The Set has passed the door of its flight; an ended one has returned nil.
  predicate Inside(task: Task) {
    task.op.Set? && !task.pc.Begin? && !task.pc.Enter? && (task.pc.Ended? ==> task.pc.outcome == Return(Done))
  }

  // The Set leads its flight and is past the write to the main cache, on the way to a nil return.
  predicate PastWrite(task: Task) {
    && task.op.Set? && task.trail.joined.None?
    && (task.pc.Second? || task.pc.Release? || task.pc.ListPeers? || task.pc.FanOut?
        || ((task.pc.Store? || task.pc.Signal? || task.pc.Delete? || task.pc.Ended?)
            && task.pc.outcome == Return(Done)))
  }

  lemma SetMove(nd: Node, t: Tid, task: Task, inp: Input, m: Move)
    requires m == Next(nd, t, task, inp) && m.Move? && task.op.Set? && nd.caching
    requires Flights.Shape(task.op, task.pc) && Flights.LockFits(task.op, task.pc)
    requires task.pc.Wait? ==> task.trail.joined.Some?
    ensures m.task.op == task.op && m.task.node == task.node
    ensures Inside(m.task) ==> Inside(task) || (task.pc.Enter? && inp == Go)
    ensures PastWrite(m.task) ==> PastWrite(task) || (task.pc.First? && inp == Go)
    ensures task.pc.First? ==> m.node.main == nd.main[task.op.key := task.op.view]
    ensures task.pc.Enter? && task.trail.joined.None? ==>
              (m.task.trail.joined.None? <==> task.op.key !in nd.sets.m)
  {
    NextIsJoinMove(nd, t, task, inp, m);
    if InDo(task.pc) {
    } else if InLock(task.pc) {
    } else if task.pc.FanOut? {
    } else {
    }
  }

  // What a step of the Set itself says about the state before it.
  lemma SetStep(s: State, step: Step, t: Tid)
    requires Flights.Inv(s) && Inv(s) && Enabled(s, step) && step.Run? && step.t == t && s.tasks[t].op.Set?
    requires s.nodes[s.tasks[t].node].caching
    ensures var task, task', n := s.tasks[t], Apply(s, step).tasks[t], s.tasks[t].node;
      && task'.op == task.op && task'.node == n
      && (Inside(task') ==> Inside(task) || (task.pc.Enter? && step.input == Go))
      && (PastWrite(task') ==>
            PastWrite(task)
            || (task.pc.First? && step.input == Go && task.pc.job == Write(task.op.key, task.op.view)))
      && (task.pc.First? ==> Apply(s, step).nodes[n].main == s.nodes[n].main[task.op.key := task.op.view])
      && (task.pc.Enter? ==> (task'.trail.joined.None? <==> FindsKeyFree(s, t)))
      && (!task.pc.Enter? ==> task'.trail.joined == task.trail.joined)
  {
    assert Flights.TaskOk(s, t) && JoinOk(s, t);
    var m := Next(s.nodes[s.tasks[t].node], t, s.tasks[t], step.input);
    Flights.SpawnsFresh(s, t, step.input);
    NextIsJoinMove(s.nodes[s.tasks[t].node], t, s.tasks[t], step.input, m);
    SetMove(s.nodes[s.tasks[t].node], t, s.tasks[t], step.input, m);
  }

  // Another step leaves the Set as it is.
  lemma Bystands(s: State, step: Step, t: Tid)
    requires Flights.Inv(s) && Enabled(s, step) && !(step.Run? && step.t == t)
    requires t in Apply(s, step).tasks && (Inside(Apply(s, step).tasks[t]) || PastWrite(Apply(s, step).tasks[t]))
    requires var s' := Apply(s, step); s'.tasks[t].node in s'.nodes && s'.nodes[s'.tasks[t].node].caching
    ensures t in s.tasks && s.tasks[t] == Apply(s, step).tasks[t]
    ensures s.tasks[t].node in s.nodes && s.nodes[s.tasks[t].node].caching
  {
    if step.Run? {
      Flights.SpawnsFresh(s, step.t, step.input);
    }
    assert t in s.tasks;
    assert Flights.TaskOk(s, t);
    Runs.SameNode(s, step, s.tasks[t].node);
  }

  ghost predicate OnCachingNode(s: State, t: Tid)
    requires t in s.tasks
  {
    s.tasks[t].node in s.nodes && s.nodes[s.tasks[t].node].caching
  }

  lemma BeforePastWrite(s: State, step: Step, t: Tid)
    requires Flights.Inv(s) && Inv(s) && Enabled(s, step) && t in Apply(s, step).tasks
    requires PastWrite(Apply(s, step).tasks[t]) && OnCachingNode(Apply(s, step), t)
    ensures t in s.tasks && OnCachingNode(s, t)
    ensures PastWrite(s.tasks[t]) || Stores(s, step, Apply(s, step), t)
  {
    if step.Run? && step.t == t {
      assert Flights.TaskOk(s, t);
      Runs.SameNode(s, step, s.tasks[t].node);
      Flights.RunIsFlightMove(s, t, step.input, Next(s.nodes[s.tasks[t].node], t, s.tasks[t], step.input));
      SetStep(s, step, t);
    } else {
      Bystands(s, step, t);
    }
  }

  lemma BeforeInside(s: State, step: Step, t: Tid)
    requires Flights.Inv(s) && Inv(s) && Enabled(s, step) && t in Apply(s, step).tasks
    requires Inside(Apply(s, step).tasks[t]) && OnCachingNode(Apply(s, step), t)
    ensures t in s.tasks && OnCachingNode(s, t)
    ensures var task, task' := s.tasks[t], Apply(s, step).tasks[t];
      || (Inside(task) && task'.trail.joined == task.trail.joined)
      || (Enters(s, step, t) && (task'.trail.joined.None? <==> FindsKeyFree(s, t)))
  {
    if step.Run? && step.t == t {
      assert Flights.TaskOk(s, t);
      Runs.SameNode(s, step, s.tasks[t].node);
      Flights.RunIsFlightMove(s, t, step.input, Next(s.nodes[s.tasks[t].node], t, s.tasks[t], step.input));
      SetStep(s, step, t);
    } else {
      Bystands(s, step, t);
    }
  }

  lemma {:induction false} StoredBefore(ss: seq<State>, steps: seq<Step>, j: nat, t: Tid) returns (i: nat)
    requires IsRun(ss, steps) && Init(ss[0]) && j < |ss| && t in ss[j].tasks && PastWrite(ss[j].tasks[t])
    requires OnCachingNode(ss[j], t)
    ensures i < j && Stores(ss[i], steps[i], ss[i + 1], t)
  {
    i := j - 1;
    Invariant(ss, steps, i);
    assert Enabled(ss[i], steps[i]) && ss[j] == Apply(ss[i], steps[i]);
    BeforePastWrite(ss[i], steps[i], t);
    if PastWrite(ss[i].tasks[t]) {
      i := StoredBefore(ss, steps, i, t);
    }
  }

  lemma {:induction false} EnteredBefore(ss: seq<State>, steps: seq<Step>, j: nat, t: Tid) returns (e: nat)
    requires IsRun(ss, steps) && Init(ss[0]) && j < |ss| && t in ss[j].tasks && Inside(ss[j].tasks[t])
    requires OnCachingNode(ss[j], t)
    ensures e < j && Enters(ss[e], steps[e], t)
    ensures ss[j].tasks[t].trail.joined.None? <==> FindsKeyFree(ss[e], t)
  {
    e := j - 1;
    Invariant(ss, steps, e);
    assert Enabled(ss[e], steps[e]) && ss[j] == Apply(ss[e], steps[e]);
    BeforeInside(ss[e], steps[e], t);
    if Inside(ss[e].tasks[t]) {
      e := EnteredBefore(ss, steps, e, t);
    }
  }

  // For every run and every Set that has returned nil on a caching node: it stored its value if and
  // only if it joined nobody, that is, if and only if no Set of its key was in flight on the node
  // when it entered (step e).
  lemma SetStoresIffLeads(ss: seq<State>, steps: seq<Step>, j: nat, t: Tid) returns (e: nat)
    requires IsRun(ss, steps) && Init(ss[0]) && j < |ss| && t in ss[j].tasks && OnCachingNode(ss[j], t)
    requires ss[j].tasks[t].op.Set? && ss[j].tasks[t].pc == Ended(Return(Done))
    ensures e < j && Enters(ss[e], steps[e], t)
    ensures (exists i :: 0 <= i < j && Stores(ss[i], steps[i], ss[i + 1], t)) <==> FindsKeyFree(ss[e], t)
    ensures FindsKeyFree(ss[e], t) <==> ss[j].tasks[t].trail.joined.None?
  {
    e := EnteredBefore(ss, steps, j, t);
    if ss[j].tasks[t].trail.joined.None? {
      var i := StoredBefore(ss, steps, j, t);
    }
    forall i | 0 <= i < j && Stores(ss[i], steps[i], ss[i + 1], t)
      ensures ss[j].tasks[t].trail.joined.None?
    {
      Invariant(ss, steps, i);
      assert JoinOk(ss[i], t);
      UnjoinedForGood(ss, steps, i, j, t);
    }
  }

  // A Set on a node without caching does nothing but begin and end.
  lemma {:induction false} IdleSet(ss: seq<State>, steps: seq<Step>, i: nat, t: Tid)
    requires IsRun(ss, steps) && Init(ss[0]) && i < |ss|
    requires t in ss[i].tasks && ss[i].tasks[t].op.Set? && !OnCachingNode(ss[i], t)
    ensures ss[i].tasks[t].pc.Begin? || ss[i].tasks[t].pc.Ended?
  {
    Invariant(ss, steps, i);
    assert Flights.TaskOk(ss[i], t);
    if i > 0 {
      var s, step := ss[i - 1], steps[i - 1];
      Invariant(ss, steps, i - 1);
      assert Enabled(s, step) && ss[i] == Apply(s, step);
      if t in s.tasks {
        IdleBefore(s, step, t);
        IdleSet(ss, steps, i - 1, t);
        IdleStep(s, step, t);
      } else if step.Run? {
        Flights.SpawnsFresh(s, step.t, step.input);
      }
    }
  }

  lemma IdleBefore(s: State, step: Step, t: Tid)
    requires Flights.Inv(s) && Enabled(s, step) && t in s.tasks && t in Apply(s, step).tasks
    requires Apply(s, step).tasks[t].op.Set? && !OnCachingNode(Apply(s, step), t)
    ensures s.tasks[t].op.Set? && !OnCachingNode(s, t) && s.tasks[t].node in s.nodes
  {
    assert Flights.TaskOk(s, t);
    Runs.SameNode(s, step, s.tasks[t].node);
    if step.Run? {
      Flights.SpawnsFresh(s, step.t, step.input);
      Flights.RunIsFlightMove(s, step.t, step.input,
                              Next(s.nodes[s.tasks[step.t].node], step.t, s.tasks[step.t], step.input));
    }
  }

  lemma IdleStep(s: State, step: Step, t: Tid)
    requires Enabled(s, step) && t in s.tasks && s.tasks[t].op.Set?
    requires s.tasks[t].node in s.nodes && !OnCachingNode(s, t)
    requires s.tasks[t].pc.Begin? || s.tasks[t].pc.Ended?
    ensures t in Apply(s, step).tasks
    ensures Apply(s, step).tasks[t].pc.Begin? || Apply(s, step).tasks[t].pc.Ended?
  {
    if step.Run? {
      Flights.SpawnsFresh(s, step.t, step.input);
    }
  }

  // The exact condition over all runs: a Set that has returned nil stored its value if and only if
  // its node caches and it joined nobody.
  lemma SetStoresExactly(ss: seq<State>, steps: seq<Step>, j: nat, t: Tid)
    requires IsRun(ss, steps) && Init(ss[0]) && j < |ss| && t in ss[j].tasks
    requires ss[j].tasks[t].op.Set? && ss[j].tasks[t].pc == Ended(Return(Done))
    ensures (exists i :: 0 <= i < j && Stores(ss[i], steps[i], ss[i + 1], t))
       <==> OnCachingNode(ss[j], t) && ss[j].tasks[t].trail.joined.None?
  {
    forall i | 0 <= i < j && Stores(ss[i], steps[i], ss[i + 1], t)
      ensures OnCachingNode(ss[j], t)
    {
      StoresWhereCached(ss, steps, i, j, t);
    }
    if OnCachingNode(ss[j], t) {
      var e := SetStoresIffLeads(ss, steps, j, t);
    }
  }

  lemma StoresWhereCached(ss: seq<State>, steps: seq<Step>, i: nat, j: nat, t: Tid)
    requires IsRun(ss, steps) && Init(ss[0]) && i < j < |ss| && Stores(ss[i], steps[i], ss[i + 1], t)
    ensures t in ss[j].tasks && OnCachingNode(ss[j], t)
  {
    SameTask(ss, steps, i, j, t);
    Runs.SameNodes(ss, steps, i, j, ss[i].tasks[t].node);
    if !OnCachingNode(ss[i], t) {
      IdleSet(ss, steps, i, t);
    }
  }

  lemma {:induction false} SameTask(ss: seq<State>, steps: seq<Step>, i: nat, j: nat, t: Tid)
    requires IsRun(ss, steps) && Init(ss[0]) && i <= j < |ss| && t in ss[i].tasks
    ensures t in ss[j].tasks && ss[j].tasks[t].op == ss[i].tasks[t].op && ss[j].tasks[t].node == ss[i].tasks[t].node
    decreases j - i
  {
    if i < j {
      Invariant(ss, steps, i);
      assert Enabled(ss[i], steps[i]) && ss[i + 1] == Apply(ss[i], steps[i]);
      if steps[i].Run? {
        var u := steps[i].t;
        Flights.RunIsFlightMove(ss[i], u, steps[i].input,
                                Next(ss[i].nodes[ss[i].tasks[u].node], u, ss[i].tasks[u], steps[i].input));
        Flights.SpawnsFresh(ss[i], u, steps[i].input);
      }
      SameTask(ss, steps, i + 1, j, t);
    }
  }
}
