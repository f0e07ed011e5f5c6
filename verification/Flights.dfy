// What every run keeps about the in-flight calls of a node: the map of a singleflight group names
// exactly the calls that are being led, and a call's result becomes visible once and for all.
module Flights {
  import opened Views
  import opened Wire
  import opened Protocol
  import Flight

  // The three groups of a node: loads, sets, removes.
  function Kind(op: Op): (i: nat)
    ensures i <= 3
  {
    if op.Get? then 0 else if op.Set? then 1 else if op.Remove? then 2 else 3
  }

  // The task is inside the function that Do runs, or in Do's deferred part.
  predicate Leads(op: Op, pc: Pc) {
    match op
    case Get(_, nilDest) => !nilDest && LeadsLoad(pc)
    case Set(_, _) => LeadsWrite(pc)
    case Remove(_) => LeadsWrite(pc)
    case _ => false
  }

  predicate LeadsLoad(pc: Pc) {
    (pc.LookMain? && pc.again) || (pc.LookHot? && pc.again) || (pc.CountHit? && pc.again) || pc.CountDedup?
    || pc.Pick? || pc.CallPeer? || pc.AwaitPeer? || pc.PopHot? || pc.CountPeer? || pc.PeerFailed? || pc.RunGetter?
    || pc.CountLocal? || pc.PopMain? || pc.Store? || pc.Signal? || pc.Delete?
  }

  predicate LeadsWrite(pc: Pc) {
    pc.PickOwner? || pc.CallOwner? || pc.AwaitOwner? || InLock(pc) || pc.ListPeers? || pc.FanOut?
    || pc.Store? || pc.Signal? || pc.Delete?
  }

  predicate HoldsLock(pc: Pc) {
    pc.First? || pc.Second? || pc.Release?
  }

  // Where a task of this kind can be.
  predicate Shape(op: Op, pc: Pc) {
    pc.Begin? || pc.Ended? ||
    match op
    case Get(_, nilDest) =>
      !nilDest && (LeadsLoad(pc) || pc.LookMain? || pc.LookHot?
                   || pc.CountHit? || pc.CountLoad? || pc.Enter? || pc.Wait?)
    case Set(_, _) => Leads(op, pc) || pc.Enter? || pc.Wait?
    case Remove(_) => Leads(op, pc) || pc.Enter? || pc.Wait?
    case RemoveKeys(_) => pc.Sort? || InLock(pc) || pc.FanOut?
    case ServeSet(_, _) => InLock(pc)
    case ServeRemove(_) => InLock(pc)
  }

  // What follows a critical section belongs to the operation that runs it.
  predicate LockFits(op: Op, pc: Pc) {
    InLock(pc) ==>
      match op
      case Set(k, v) => pc.job == Write(k, v) && pc.next.ListFor?
      case Remove(k) => pc.job == Erase(k) && pc.next.ListFor?
      case RemoveKeys(_) => pc.job.Erase? && pc.next.EraseMore? && pc.next.batch.Some?
      case ServeSet(k, v) => pc.job == Write(k, v) && pc.next.Reply?
      case ServeRemove(_) => pc.job.Erase? && pc.next.EraseMore? && pc.next.batch.None?
      case Get(_, _) => false
  }

  // What callers of the same flight read.
  function Seen(o: Outcome): (r: Result) {
    if o.Panic? then Fail(LeaderPanicked) else o.result
  }

  predicate CallState(pc: Pc, c: Flight.Call<Result>) {
    match pc
    case Store(o) => o.Return? && c == Flight.Call(false, Fail(LeaderPanicked))
    case Signal(o) => c == Flight.Call(false, Seen(o))
    case Delete(o) => c == Flight.Call(true, Seen(o))
    case _ => c == Flight.Call(false, Fail(LeaderPanicked))
  }

  ghost predicate LeaderOk(g: Flight.Group<Result>, t: Tid, op: Op, pc: Pc) {
    Leads(op, pc) ==>
      op.key in g.m && g.m[op.key] == t && t in g.calls && CallState(pc, g.calls[t])
  }

  // Everything about task t except whom it waits for.
  ghost predicate TaskOk(s: State, t: Tid)
    requires t in s.tasks
  {
    var task := s.tasks[t];
    && task.node in s.nodes
    && Shape(task.op, task.pc)
    && LockFits(task.op, task.pc)
    && LeaderOk(GroupOf(s.nodes[task.node], task.op), t, task.op, task.pc)
    && (HoldsLock(task.pc) ==> s.nodes[task.node].loads.mu == Some(t))
  }

  // A waiting task waits for a call on its own key, of its own group and node.
  ghost predicate WaitOk(s: State, t: Tid)
    requires t in s.tasks && s.tasks[t].node in s.nodes
  {
    var task := s.tasks[t];
    task.pc.Wait? ==>
      && HasKey(task.op)
      && task.pc.call in GroupOf(s.nodes[task.node], task.op).calls
      && MemberOk(s, task.node, Kind(task.op), task.pc.call)
      && s.tasks[task.pc.call].op.key == task.op.key
  }

  ghost predicate MemberOk(s: State, n: Addr, i: nat, t: Tid) {
    t in s.tasks && s.tasks[t].node == n && HasKey(s.tasks[t].op) && Kind(s.tasks[t].op) == i
  }

  // The map names the task that leads the call on each key.
  ghost predicate MapOk(s: State, n: Addr, g: Flight.Group<Result>, i: nat) {
    forall k :: k in g.m ==> EntryOk(s, n, g, i, k)
  }

  ghost predicate EntryOk(s: State, n: Addr, g: Flight.Group<Result>, i: nat, k: Key)
    requires k in g.m
  {
    MemberOk(s, n, i, g.m[k]) && s.tasks[g.m[k]].op.key == k && Leads(s.tasks[g.m[k]].op, s.tasks[g.m[k]].pc)
  }

  // A call belongs to the task that leads it or led it; then its result is final.
  ghost predicate CallsOk(s: State, n: Addr, g: Flight.Group<Result>, i: nat) {
    forall c :: c in g.calls ==> CallOk(s, n, g, i, c)
  }

  ghost predicate CallOk(s: State, n: Addr, g: Flight.Group<Result>, i: nat, c: Tid)
    requires c in g.calls
  {
    && MemberOk(s, n, i, c) && !(s.tasks[c].op.Get? && s.tasks[c].op.nilDest)
    && (Leads(s.tasks[c].op, s.tasks[c].pc)
        || (s.tasks[c].pc.Ended? && g.calls[c] == Flight.Call(true, Seen(s.tasks[c].pc.outcome))))
  }

  ghost predicate MutexOk(s: State, n: Addr, nd: Node) {
    && (nd.loads.mu.Some? ==>
          nd.loads.mu.value in s.tasks && s.tasks[nd.loads.mu.value].node == n
          && HoldsLock(s.tasks[nd.loads.mu.value].pc))
    && nd.sets.mu == None && nd.removes.mu == None
  }

  ghost predicate NodeOk(s: State, n: Addr)
    requires n in s.nodes
  {
    var nd := s.nodes[n];
    && MapOk(s, n, nd.loads, 0) && MapOk(s, n, nd.sets, 1) && MapOk(s, n, nd.removes, 2)
    && CallsOk(s, n, nd.loads, 0) && CallsOk(s, n, nd.sets, 1) && CallsOk(s, n, nd.removes, 2)
    && MutexOk(s, n, nd)
  }

  ghost predicate TasksOk(s: State) {
    forall t {:trigger TaskOk(s, t)} :: t in s.tasks ==> TaskOk(s, t)
  }

  ghost predicate WaitsOk(s: State) {
    forall t {:trigger WaitOk(s, t)} :: t in s.tasks ==> s.tasks[t].node in s.nodes && WaitOk(s, t)
  }

  ghost predicate NodesOk(s: State) {
    forall n {:trigger NodeOk(s, n)} :: n in s.nodes ==> NodeOk(s, n)
  }

  ghost predicate Inv(s: State) {
    TasksOk(s) && WaitsOk(s) && NodesOk(s)
  }

  // ---------- one move, seen from the groups of its node ----------

  // How a move treats the group that its operation goes through.
  ghost predicate OwnGroup(g: Flight.Group<Result>, g': Flight.Group<Result>, t: Tid, op: Op, pc: Pc, pc': Pc)
    requires HasKey(op)
  {
    if !Leads(op, pc) then
      if !Leads(op, pc') then
        && g'.m == g.m && g'.calls == g.calls
        && (pc'.Wait? ==> op.key in g.m && pc'.call == g.m[op.key])
      else
        && pc.Enter? && op.key !in g.m && g.mu.None?
        && g'.m == g.m[op.key := t]
        && g'.calls == g.calls[t := Flight.Call(false, Fail(LeaderPanicked))]
        && CallState(pc', g'.calls[t])
    else if Leads(op, pc') then
      && g'.m == g.m
      && t in g.calls && t in g'.calls && g'.calls == g.calls[t := g'.calls[t]] && CallState(pc', g'.calls[t])
    else
      && pc.Delete? && pc' == Ended(pc.outcome) && g.mu.None?
      && g'.m == g.m - {op.key} && g'.calls == g.calls
  }

  ghost predicate FlightMove(nd: Node, nd': Node, t: Tid, task: Task, task': Task) {
    && task'.node == task.node && task'.op == task.op && !task.pc.Ended?
    && Shape(task.op, task'.pc) && LockFits(task.op, task'.pc)
    && (!task.op.Get? ==> nd'.loads.m == nd.loads.m && nd'.loads.calls == nd.loads.calls)
    && (!task.op.Set? ==> nd'.sets == nd.sets)
    && (!task.op.Remove? ==> nd'.removes == nd.removes)
    && nd'.sets.mu == nd.sets.mu && nd'.removes.mu == nd.removes.mu
    && (HasKey(task.op) ==> OwnGroup(GroupOf(nd, task.op), GroupOf(nd', task.op), t, task.op, task.pc, task'.pc))
    && (if HoldsLock(task.pc) then
          if HoldsLock(task'.pc) then nd'.loads.mu == nd.loads.mu else nd'.loads.mu == None
        else if HoldsLock(task'.pc) then nd.loads.mu == None && nd'.loads.mu == Some(t)
        else nd'.loads.mu == nd.loads.mu)
  }

  lemma EraseNextShape(rest: seq<Key>, batch: Option<map<Client, seq<Key>>>, op: Op)
    requires op.RemoveKeys? || op.ServeRemove?
    requires batch.Some? <==> op.RemoveKeys?
    ensures Shape(op, EraseNext(rest, batch)) && LockFits(op, EraseNext(rest, batch))
    ensures !HoldsLock(EraseNext(rest, batch))
  {
  }

  lemma NextIsFlightMove(nd: Node, t: Tid, task: Task, inp: Input, m: Move)
    requires m == Next(nd, t, task, inp) && m.Move?
    requires Shape(task.op, task.pc) && LockFits(task.op, task.pc)
    requires LeaderOk(GroupOf(nd, task.op), t, task.op, task.pc)
    ensures FlightMove(nd, m.node, t, task, m.task)
  {
    if InDo(task.pc) {
      FlightMoveInDo(nd, t, task, m);
    } else if InLock(task.pc) {
      FlightMoveInLock(nd, t, task, m);
    } else {
      MoveInPlace(nd, t, task, inp, m);
      KeepsCalls(nd, m.node, t, task, m.task);
    }
  }

  // Outside Do and Lock no group is touched, and leading neither begins nor ends.
  ghost predicate InPlace(nd: Node, nd': Node, op: Op, pc: Pc, pc': Pc) {
    && nd'.loads == nd.loads && nd'.sets == nd.sets && nd'.removes == nd.removes
    && Shape(op, pc') && LockFits(op, pc')
    && !HoldsLock(pc') && !pc'.Wait? && !pc'.Delete?
    && (Leads(op, pc) <==> Leads(op, pc'))
    && (pc'.Store? ==> pc'.outcome.Return?)
    && (pc'.Signal? ==> pc'.outcome.Panic?)
  }

  lemma MoveInPlace(nd: Node, t: Tid, task: Task, inp: Input, m: Move)
    requires m == Next(nd, t, task, inp) && m.Move?
    requires !InDo(task.pc) && !InLock(task.pc)
    requires Shape(task.op, task.pc)
    ensures m.task.node == task.node && m.task.op == task.op
    ensures InPlace(nd, m.node, task.op, task.pc, m.task.pc)
  {
    if task.pc.FanOut? {
    } else if task.op.Get? {
      if task.pc.Begin? || task.pc.LookMain? || task.pc.LookHot? || task.pc.CountHit? {
        LookupInPlace(nd, task, inp, m);
      } else if task.pc.CallPeer? || task.pc.AwaitPeer? || task.pc.PopHot?
                || task.pc.CountPeer? || task.pc.PeerFailed? {
        PeerInPlace(nd, task, inp, m);
      } else {
        LocalInPlace(nd, task, inp, m);
      }
    } else if task.op.Set? || task.op.Remove? {
      WriteInPlace(nd, task, inp, m);
    } else {
      assert m.node == nd;
    }
  }

  lemma WriteInPlace(nd: Node, task: Task, inp: Input, m: Move)
    requires (task.op.Set? || task.op.Remove?) && Fits(task.pc, inp) && m == NextWrite(nd, task, inp) && m.Move?
    requires Shape(task.op, task.pc) && !InDo(task.pc)
    ensures m.task.node == task.node && m.task.op == task.op
    ensures InPlace(nd, m.node, task.op, task.pc, m.task.pc)
  {
  }

  lemma LookupInPlace(nd: Node, task: Task, inp: Input, m: Move)
    requires task.op.Get? && Fits(task.pc, inp) && m == NextGet(nd, task, inp) && m.Move?
    requires Shape(task.op, task.pc)
    requires task.pc.Begin? || task.pc.LookMain? || task.pc.LookHot? || task.pc.CountHit?
    ensures m.task.node == task.node && m.task.op == task.op
    ensures InPlace(nd, m.node, task.op, task.pc, m.task.pc)
  {
  }

  lemma PeerInPlace(nd: Node, task: Task, inp: Input, m: Move)
    requires task.op.Get? && Fits(task.pc, inp) && m == NextGet(nd, task, inp) && m.Move?
    requires Shape(task.op, task.pc)
    requires task.pc.CallPeer? || task.pc.AwaitPeer? || task.pc.PopHot? || task.pc.CountPeer? || task.pc.PeerFailed?
    ensures m.task.node == task.node && m.task.op == task.op
    ensures InPlace(nd, m.node, task.op, task.pc, m.task.pc)
  {
  }

  lemma LocalInPlace(nd: Node, task: Task, inp: Input, m: Move)
    requires task.op.Get? && Fits(task.pc, inp) && m == NextGet(nd, task, inp) && m.Move?
    requires Shape(task.op, task.pc)
    requires task.pc.CountLoad? || task.pc.CountDedup? || task.pc.Pick?
             || task.pc.RunGetter? || task.pc.CountLocal? || task.pc.PopMain?
    ensures m.task.node == task.node && m.task.op == task.op
    ensures InPlace(nd, m.node, task.op, task.pc, m.task.pc)
  {
  }

  // A move that touches no group.
  lemma KeepsCalls(nd: Node, nd': Node, t: Tid, task: Task, task': Task)
    requires task'.node == task.node && task'.op == task.op
    requires InPlace(nd, nd', task.op, task.pc, task'.pc)
    requires !InDo(task.pc) && !InLock(task.pc) && !task.pc.Ended?
    requires LeaderOk(GroupOf(nd, task.op), t, task.op, task.pc)
    ensures FlightMove(nd, nd', t, task, task')
  {
    if Leads(task.op, task.pc) {
      var g := GroupOf(nd, task.op);
      assert g.calls == g.calls[t := g.calls[t]];
    }
  }

  lemma FlightMoveInDo(nd: Node, t: Tid, task: Task, m: Move)
    requires HasKey(task.op) && InDo(task.pc) && m == NextFlight(nd, t, task) && m.Move?
    requires Shape(task.op, task.pc) && LeaderOk(GroupOf(nd, task.op), t, task.op, task.pc)
    ensures FlightMove(nd, m.node, t, task, m.task)
  {
    var g := GroupOf(nd, task.op);
    var d := NextDo(g, t, task.op, task.pc);
    DoOwnGroup(g, t, task.op, task.pc, d);
    GroupReplaced(nd, t, task, m.task, g, d.group);
  }

  lemma DoOwnGroup(g: Flight.Group<Result>, t: Tid, op: Op, pc: Pc, d: DoMove)
    requires HasKey(op) && InDo(pc) && d == NextDo(g, t, op, pc) && d.DoMove?
    requires Shape(op, pc) && LeaderOk(g, t, op, pc)
    ensures d.group.mu == g.mu && Shape(op, d.pc) && !InLock(d.pc)
    ensures OwnGroup(g, d.group, t, op, pc, d.pc)
  {
    if pc.Store? || pc.Signal? {
      assert d.group.calls == g.calls[t := d.group.calls[t]];
    }
  }

  lemma GroupReplaced(nd: Node, t: Tid, task: Task, task': Task, g: Flight.Group<Result>, g': Flight.Group<Result>)
    requires HasKey(task.op) && InDo(task.pc) && g == GroupOf(nd, task.op) && g'.mu == g.mu
    requires task'.node == task.node && task'.op == task.op && Shape(task.op, task'.pc) && !InLock(task'.pc)
    requires OwnGroup(g, g', t, task.op, task.pc, task'.pc)
    ensures FlightMove(nd, WithGroup(nd, task.op, g'), t, task, task')
  {
  }

  lemma FlightMoveInLock(nd: Node, t: Tid, task: Task, m: Move)
    requires InLock(task.pc) && m == Critical(nd, t, task) && m.Move?
    requires Shape(task.op, task.pc) && LockFits(task.op, task.pc)
    requires LeaderOk(GroupOf(nd, task.op), t, task.op, task.pc)
    ensures FlightMove(nd, m.node, t, task, m.task)
  {
    if HasKey(task.op) {
      var g := GroupOf(nd, task.op);
      assert GroupOf(m.node, task.op).calls == g.calls == g.calls[t := g.calls[t]];
    }
    if task.pc.Release? && task.pc.next.EraseMore? {
      EraseNextShape(task.pc.next.rest, task.pc.next.batch, task.op);
    }
  }

  // ---------- the whole cluster ----------

  // A request arrives at its node as a task that has not begun.
  ghost predicate SpawnOk(s: State, m: Move, child: Option<Tid>) {
    m.Move? && (m.spawn.Some? ==>
      child.Some? && child.value !in s.tasks && m.spawn.value.node in s.nodes && m.spawn.value.pc == Begin
      && m.spawn.value.trail == FRESH)
  }

  lemma SpawnsFresh(s: State, t: Tid, inp: Input)
    requires Enabled(s, Run(t, inp))
    ensures SpawnOk(s, Next(s.nodes[s.tasks[t].node], t, s.tasks[t], inp), ChildOf(inp))
  {
  }

  lemma MovedTaskOk(s: State, t: Tid, m: Move, child: Option<Tid>, u: Tid)
    requires t in s.tasks && u in s.tasks && SpawnOk(s, m, child)
    requires TaskOk(s, t) && TaskOk(s, u)
    requires FlightMove(s.nodes[s.tasks[t].node], m.node, t, s.tasks[t], m.task)
    ensures TaskOk(Moved(s, t, m, child), u)
  {
    var nd, nd' := s.nodes[s.tasks[t].node], m.node;
    var s' := Moved(s, t, m, child);
    if u != t {
      assert s'.tasks[u] == s.tasks[u];
      if s.tasks[u].node == s.tasks[t].node {
        BystanderOk(nd, nd', t, s.tasks[t], m.task, u, s.tasks[u]);
      }
    } else {
      MoverOk(nd, nd', t, s.tasks[t], m.task);
    }
  }

  // Another task of the same node keeps its flight and its lock.
  lemma BystanderOk(nd: Node, nd': Node, t: Tid, task: Task, task': Task, u: Tid, other: Task)
    requires u != t && FlightMove(nd, nd', t, task, task')
    requires LeaderOk(GroupOf(nd, task.op), t, task.op, task.pc)
    requires HoldsLock(task.pc) ==> nd.loads.mu == Some(t)
    requires LeaderOk(GroupOf(nd, other.op), u, other.op, other.pc)
    requires HoldsLock(other.pc) ==> nd.loads.mu == Some(u)
    ensures LeaderOk(GroupOf(nd', other.op), u, other.op, other.pc)
    ensures HoldsLock(other.pc) ==> nd'.loads.mu == Some(u)
  {
    match other.op
    case Get(_, _) =>
    case Set(_, _) =>
    case Remove(_) =>
    case _ =>
  }

  lemma MoverOk(nd: Node, nd': Node, t: Tid, task: Task, task': Task)
    requires FlightMove(nd, nd', t, task, task')
    requires LeaderOk(GroupOf(nd, task.op), t, task.op, task.pc)
    requires HoldsLock(task.pc) ==> nd.loads.mu == Some(t)
    ensures LeaderOk(GroupOf(nd', task.op), t, task.op, task'.pc)
    ensures HoldsLock(task'.pc) ==> nd'.loads.mu == Some(t)
  {
  }

  // No call record disappears.
  lemma CallsGrow(nd: Node, nd': Node, t: Tid, task: Task, task': Task, op: Op, c: Tid)
    requires FlightMove(nd, nd', t, task, task') && HasKey(op)
    requires c in GroupOf(nd, op).calls
    ensures c in GroupOf(nd', op).calls
  {
  }

  // A task that comes to wait waits for the call it found in the map.
  lemma JoinerOk(s: State, t: Tid, m: Move, child: Option<Tid>)
    requires t in s.tasks && SpawnOk(s, m, child) && TaskOk(s, t) && NodeOk(s, s.tasks[t].node) && m.task.pc.Wait?
    requires HasKey(s.tasks[t].op) && s.tasks[t].op.key in GroupOf(s.nodes[s.tasks[t].node], s.tasks[t].op).m ==>
      var l := GroupOf(s.nodes[s.tasks[t].node], s.tasks[t].op).m[s.tasks[t].op.key];
      l in s.tasks && TaskOk(s, l)
    requires FlightMove(s.nodes[s.tasks[t].node], m.node, t, s.tasks[t], m.task)
    ensures s.tasks[t].node in Moved(s, t, m, child).nodes && WaitOk(Moved(s, t, m, child), t)
  {
    var task := s.tasks[t];
    var g := GroupOf(s.nodes[task.node], task.op);
    assert MapOk(s, task.node, g, Kind(task.op));
    var l := g.m[task.op.key];
    assert MemberOk(s, task.node, Kind(task.op), l) && TaskOk(s, l);
    CallsGrow(s.nodes[task.node], m.node, t, task, m.task, task.op, l);
  }

  lemma MovedWaitOk(s: State, t: Tid, m: Move, child: Option<Tid>, u: Tid)
    requires t in s.tasks && u in s.tasks && SpawnOk(s, m, child)
    requires TaskOk(s, t) && TaskOk(s, u) && WaitOk(s, u) && NodeOk(s, s.tasks[t].node)
    requires HasKey(s.tasks[t].op) && s.tasks[t].op.key in GroupOf(s.nodes[s.tasks[t].node], s.tasks[t].op).m ==>
      var l := GroupOf(s.nodes[s.tasks[t].node], s.tasks[t].op).m[s.tasks[t].op.key];
      l in s.tasks && TaskOk(s, l)
    requires FlightMove(s.nodes[s.tasks[t].node], m.node, t, s.tasks[t], m.task)
    ensures s.tasks[u].node in Moved(s, t, m, child).nodes && WaitOk(Moved(s, t, m, child), u)
  {
    var task := s.tasks[t];
    var s' := Moved(s, t, m, child);
    if u == t {
      if m.task.pc.Wait? {
        JoinerOk(s, t, m, child);
      }
    } else if s.tasks[u].pc.Wait? && s.tasks[u].node == task.node {
      CallsGrow(s.nodes[task.node], m.node, t, task, m.task, s.tasks[u].op, s.tasks[u].pc.call);
    }
  }

  // A group of node n before and after: changed as the move's own group, or not at all.
  ghost predicate GroupStep(s: State, t: Tid, m: Move, n: Addr, g: Flight.Group<Result>, g': Flight.Group<Result>,
                            i: nat)
    requires t in s.tasks && m.Move?
  {
    && m.task.op == s.tasks[t].op && m.task.node == s.tasks[t].node && !s.tasks[t].pc.Ended?
    && if n == m.task.node && HasKey(m.task.op) && i == Kind(m.task.op)
       then LeaderOk(g, t, s.tasks[t].op, s.tasks[t].pc) && OwnGroup(g, g', t, m.task.op, s.tasks[t].pc, m.task.pc)
       else g'.m == g.m && g'.calls == g.calls
  }

  lemma MovedMapOk(s: State, t: Tid, m: Move, child: Option<Tid>, n: Addr, g: Flight.Group<Result>,
                   g': Flight.Group<Result>, i: nat)
    requires t in s.tasks && SpawnOk(s, m, child)
    requires MapOk(s, n, g, i) && GroupStep(s, t, m, n, g, g', i)
    ensures MapOk(Moved(s, t, m, child), n, g', i)
  {
    var s' := Moved(s, t, m, child);
    forall k | k in g'.m
      ensures EntryOk(s', n, g', i, k)
    {
      MovedEntryOk(s, t, m, child, n, g, g', i, k);
    }
  }

  lemma MovedEntryOk(s: State, t: Tid, m: Move, child: Option<Tid>, n: Addr, g: Flight.Group<Result>,
                     g': Flight.Group<Result>, i: nat, k: Key)
    requires t in s.tasks && SpawnOk(s, m, child)
    requires MapOk(s, n, g, i) && GroupStep(s, t, m, n, g, g', i) && k in g'.m
    ensures EntryOk(Moved(s, t, m, child), n, g', i, k)
  {
    var l := g'.m[k];
    if l != t {
      assert k in g.m && g.m[k] == l && EntryOk(s, n, g, i, k);
      assert Moved(s, t, m, child).tasks[l] == s.tasks[l];
    } else if k in g.m {
      assert EntryOk(s, n, g, i, k);
    }
  }

  lemma MovedCallsOk(s: State, t: Tid, m: Move, child: Option<Tid>, n: Addr, g: Flight.Group<Result>,
                     g': Flight.Group<Result>, i: nat)
    requires t in s.tasks && SpawnOk(s, m, child)
    requires CallsOk(s, n, g, i) && GroupStep(s, t, m, n, g, g', i)
    ensures CallsOk(Moved(s, t, m, child), n, g', i)
  {
    var s' := Moved(s, t, m, child);
    forall c | c in g'.calls
      ensures CallOk(s', n, g', i, c)
    {
      MovedCallOk(s, t, m, child, n, g, g', i, c);
    }
  }

  lemma MovedCallOk(s: State, t: Tid, m: Move, child: Option<Tid>, n: Addr, g: Flight.Group<Result>,
                    g': Flight.Group<Result>, i: nat, c: Tid)
    requires t in s.tasks && SpawnOk(s, m, child)
    requires CallsOk(s, n, g, i) && GroupStep(s, t, m, n, g, g', i) && c in g'.calls
    ensures CallOk(Moved(s, t, m, child), n, g', i, c)
  {
    if c != t {
      assert c in g.calls && Moved(s, t, m, child).tasks[c] == s.tasks[c];
    }
  }

  lemma MovedMutexOk(s: State, t: Tid, m: Move, child: Option<Tid>, n: Addr)
    requires t in s.tasks && SpawnOk(s, m, child) && n in s.nodes
    requires TaskOk(s, t) && MutexOk(s, n, s.nodes[n])
    requires FlightMove(s.nodes[s.tasks[t].node], m.node, t, s.tasks[t], m.task)
    ensures MutexOk(Moved(s, t, m, child), n, Moved(s, t, m, child).nodes[n])
  {
  }

  lemma MovedNodeOk(s: State, t: Tid, m: Move, child: Option<Tid>, n: Addr)
    requires t in s.tasks && SpawnOk(s, m, child) && n in s.nodes
    requires TaskOk(s, t) && NodeOk(s, n)
    requires FlightMove(s.nodes[s.tasks[t].node], m.node, t, s.tasks[t], m.task)
    ensures NodeOk(Moved(s, t, m, child), n)
  {
    var nd, nd' := s.nodes[n], Moved(s, t, m, child).nodes[n];
    GroupSteps(s, t, m, child, n);
    MovedGroupOk(s, t, m, child, n, nd.loads, nd'.loads, 0);
    MovedGroupOk(s, t, m, child, n, nd.sets, nd'.sets, 1);
    MovedGroupOk(s, t, m, child, n, nd.removes, nd'.removes, 2);
    MovedMutexOk(s, t, m, child, n);
  }

  lemma GroupSteps(s: State, t: Tid, m: Move, child: Option<Tid>, n: Addr)
    requires t in s.tasks && SpawnOk(s, m, child) && n in s.nodes && TaskOk(s, t)
    requires FlightMove(s.nodes[s.tasks[t].node], m.node, t, s.tasks[t], m.task)
    ensures var nd, nd' := s.nodes[n], Moved(s, t, m, child).nodes[n];
      && GroupStep(s, t, m, n, nd.loads, nd'.loads, 0)
      && GroupStep(s, t, m, n, nd.sets, nd'.sets, 1)
      && GroupStep(s, t, m, n, nd.removes, nd'.removes, 2)
  {
    LoadsStep(s, t, m, child, n);
    SetsStep(s, t, m, child, n);
    RemovesStep(s, t, m, child, n);
  }

  lemma LoadsStep(s: State, t: Tid, m: Move, child: Option<Tid>, n: Addr)
    requires t in s.tasks && SpawnOk(s, m, child) && n in s.nodes && TaskOk(s, t)
    requires FlightMove(s.nodes[s.tasks[t].node], m.node, t, s.tasks[t], m.task)
    ensures GroupStep(s, t, m, n, s.nodes[n].loads, Moved(s, t, m, child).nodes[n].loads, 0)
  {
  }

  lemma SetsStep(s: State, t: Tid, m: Move, child: Option<Tid>, n: Addr)
    requires t in s.tasks && SpawnOk(s, m, child) && n in s.nodes && TaskOk(s, t)
    requires FlightMove(s.nodes[s.tasks[t].node], m.node, t, s.tasks[t], m.task)
    ensures GroupStep(s, t, m, n, s.nodes[n].sets, Moved(s, t, m, child).nodes[n].sets, 1)
  {
  }

  lemma RemovesStep(s: State, t: Tid, m: Move, child: Option<Tid>, n: Addr)
    requires t in s.tasks && SpawnOk(s, m, child) && n in s.nodes && TaskOk(s, t)
    requires FlightMove(s.nodes[s.tasks[t].node], m.node, t, s.tasks[t], m.task)
    ensures GroupStep(s, t, m, n, s.nodes[n].removes, Moved(s, t, m, child).nodes[n].removes, 2)
  {
  }

  lemma MovedGroupOk(s: State, t: Tid, m: Move, child: Option<Tid>, n: Addr,
                     g: Flight.Group<Result>, g': Flight.Group<Result>, i: nat)
    requires t in s.tasks && SpawnOk(s, m, child) && GroupStep(s, t, m, n, g, g', i)
    requires MapOk(s, n, g, i) && CallsOk(s, n, g, i)
    ensures MapOk(Moved(s, t, m, child), n, g', i) && CallsOk(Moved(s, t, m, child), n, g', i)
  {
    MovedMapOk(s, t, m, child, n, g, g', i);
    MovedCallsOk(s, t, m, child, n, g, g', i);
  }

  lemma MovedWaitsOk(s: State, t: Tid, m: Move, child: Option<Tid>)
    requires Inv(s) && t in s.tasks && TaskOk(s, t) && SpawnOk(s, m, child)
    requires FlightMove(s.nodes[s.tasks[t].node], m.node, t, s.tasks[t], m.task)
    ensures WaitsOk(Moved(s, t, m, child))
  {
    var s' := Moved(s, t, m, child);
    assert TaskOk(s, t) && NodeOk(s, s.tasks[t].node);
    forall u | u in s'.tasks
      ensures s'.tasks[u].node in s'.nodes && WaitOk(s', u)
    {
      if u in s.tasks {
        assert TaskOk(s, u) && WaitOk(s, u);
        MovedWaitOk(s, t, m, child, u);
      }
    }
  }

  lemma MovedTasksOk(s: State, t: Tid, m: Move, child: Option<Tid>)
    requires TasksOk(s) && t in s.tasks && TaskOk(s, t) && SpawnOk(s, m, child)
    requires FlightMove(s.nodes[s.tasks[t].node], m.node, t, s.tasks[t], m.task)
    ensures TasksOk(Moved(s, t, m, child))
  {
    var s' := Moved(s, t, m, child);
    forall u | u in s'.tasks
      ensures TaskOk(s', u)
    {
      if u in s.tasks {
        MovedTaskOk(s, t, m, child, u);
      }
    }
  }

  lemma MovedNodesOk(s: State, t: Tid, m: Move, child: Option<Tid>)
    requires NodesOk(s) && t in s.tasks && TaskOk(s, t) && SpawnOk(s, m, child)
    requires FlightMove(s.nodes[s.tasks[t].node], m.node, t, s.tasks[t], m.task)
    ensures NodesOk(Moved(s, t, m, child))
  {
    forall n | n in Moved(s, t, m, child).nodes
      ensures NodeOk(Moved(s, t, m, child), n)
    {
      MovedNodeOk(s, t, m, child, n);
    }
  }

  lemma MovedKeepsInv(s: State, t: Tid, m: Move, child: Option<Tid>)
    requires Inv(s) && t in s.tasks && TaskOk(s, t) && SpawnOk(s, m, child)
    requires FlightMove(s.nodes[s.tasks[t].node], m.node, t, s.tasks[t], m.task)
    ensures Inv(Moved(s, t, m, child))
  {
    MovedTasksOk(s, t, m, child);
    MovedWaitsOk(s, t, m, child);
    MovedNodesOk(s, t, m, child);
  }

  lemma RunIsFlightMove(s: State, t: Tid, inp: Input, m: Move)
    requires Inv(s) && Enabled(s, Run(t, inp))
    requires m == Next(s.nodes[s.tasks[t].node], t, s.tasks[t], inp)
    ensures FlightMove(s.nodes[s.tasks[t].node], m.node, t, s.tasks[t], m.task)
    ensures SpawnOk(s, m, ChildOf(inp))
  {
    assert TaskOk(s, t);
    NextIsFlightMove(s.nodes[s.tasks[t].node], t, s.tasks[t], inp, m);
    SpawnsFresh(s, t, inp);
  }

  // Every step of the cluster keeps the invariant.
  lemma StepKeepsInv(s: State, step: Step)
    requires Inv(s) && Enabled(s, step)
    ensures Inv(Apply(s, step))
  {
    if step.Run? {
      var t := step.t;
      var m := Next(s.nodes[s.tasks[t].node], t, s.tasks[t], step.input);
      RunIsFlightMove(s, t, step.input, m);
      MovedKeepsInv(s, t, m, ChildOf(step.input));
    } else {
      QuietStep(s, step);
      SameInv(s, Apply(s, step));
    }
  }

  ghost predicate SameFlights(nd: Node, nd': Node) {
    nd'.loads == nd.loads && nd'.sets == nd.sets && nd'.removes == nd.removes
  }

  // Old tasks are as before and new ones have just begun.
  ghost predicate TasksGrow(tasks: map<Tid, Task>, tasks': map<Tid, Task>, nodes: map<Addr, Node>) {
    && (forall t :: t in tasks ==> t in tasks' && tasks'[t] == tasks[t])
    && (forall t :: t in tasks' && t !in tasks ==> tasks'[t].pc == Begin && tasks'[t].node in nodes)
  }

  ghost predicate Undisturbed(s: State, s': State) {
    && s'.nodes.Keys == s.nodes.Keys
    && (forall n :: n in s.nodes ==> SameFlights(s.nodes[n], s'.nodes[n]))
    && TasksGrow(s.tasks, s'.tasks, s.nodes)
  }

  lemma OldTaskOk(s: State, s': State, t: Tid)
    requires t in s.tasks && t in s'.tasks && s'.tasks[t] == s.tasks[t] && TaskOk(s, t)
    requires s.tasks[t].node in s'.nodes && SameFlights(s.nodes[s.tasks[t].node], s'.nodes[s.tasks[t].node])
    ensures TaskOk(s', t)
  {
  }

  lemma NewTaskOk(s: State, t: Tid)
    requires t in s.tasks && s.tasks[t].pc == Begin && s.tasks[t].node in s.nodes
    ensures TaskOk(s, t)
  {
  }

  lemma SameWaitOk(s: State, s': State, t: Tid)
    requires Undisturbed(s, s') && t in s'.tasks
    requires t in s.tasks ==> s.tasks[t].node in s.nodes && WaitOk(s, t)
    ensures s'.tasks[t].node in s'.nodes && WaitOk(s', t)
  {
  }

  lemma SameNodeOk(s: State, s': State, n: Addr)
    requires Undisturbed(s, s') && n in s.nodes && NodeOk(s, n)
    ensures NodeOk(s', n)
  {
    var nd := s'.nodes[n];
    assert MapOk(s', n, nd.loads, 0) && MapOk(s', n, nd.sets, 1) && MapOk(s', n, nd.removes, 2);
  }

  lemma SameInv(s: State, s': State)
    requires Inv(s) && Undisturbed(s, s')
    ensures Inv(s')
  {
    forall u | u in s'.tasks ensures TaskOk(s', u) {
      if u in s.tasks { OldTaskOk(s, s', u); } else { NewTaskOk(s', u); }
    }
    forall u | u in s'.tasks ensures s'.tasks[u].node in s'.nodes && WaitOk(s', u) { SameWaitOk(s, s', u); }
    forall n | n in s'.nodes ensures NodeOk(s', n) { SameNodeOk(s, s', n); }
  }

  // A client call, an eviction and a new peer list do not touch the flights.
  lemma QuietStep(s: State, step: Step)
    requires Enabled(s, step) && !step.Run?
    ensures Undisturbed(s, Apply(s, step))
  {
  }

  lemma {:induction false} RunKeepsInv(ss: seq<State>, steps: seq<Step>, i: nat)
    requires IsRun(ss, steps) && Inv(ss[0]) && i < |ss|
    ensures Inv(ss[i])
  {
    if i > 0 {
      RunKeepsInv(ss, steps, i - 1);
      StepKeepsInv(ss[i - 1], steps[i - 1]);
    }
  }

  lemma InitInv(s: State)
    requires Init(s)
    ensures Inv(s)
  {
  }

  // ---------- what the invariant says ----------

  // At most one call per key and group is being led on a node at any moment.
  lemma OneLeader(s: State, t1: Tid, t2: Tid)
    requires Inv(s) && t1 in s.tasks && t2 in s.tasks
    requires Leads(s.tasks[t1].op, s.tasks[t1].pc) && Leads(s.tasks[t2].op, s.tasks[t2].pc)
    requires s.tasks[t1].node == s.tasks[t2].node && Kind(s.tasks[t1].op) == Kind(s.tasks[t2].op)
    requires s.tasks[t1].op.key == s.tasks[t2].op.key
    ensures t1 == t2
  {
    assert TaskOk(s, t1) && TaskOk(s, t2);
  }

  // A caller that joined a flight reads the outcome of the task that led it.
  lemma JoinedResult(s: State, t: Tid)
    requires Inv(s) && t in s.tasks && s.tasks[t].pc.Wait?
    ensures var task := s.tasks[t];
      && task.node in s.nodes && HasKey(task.op) && task.pc.call in s.tasks
      && var g, l := GroupOf(s.nodes[task.node], task.op), s.tasks[task.pc.call];
         && task.pc.call in g.calls && HasKey(l.op) && l.op.key == task.op.key && l.node == task.node
         && Kind(l.op) == Kind(task.op) && !(l.op.Get? && l.op.nilDest)
         && (g.calls[task.pc.call].done ==>
               (l.pc.Delete? || l.pc.Ended?) && g.calls[task.pc.call].result == Seen(l.pc.outcome))
  {
    var task := s.tasks[t];
    assert TaskOk(s, t) && WaitOk(s, t) && NodeOk(s, task.node);
    var c := task.pc.call;
    assert TaskOk(s, c);
    assert CallsOk(s, task.node, GroupOf(s.nodes[task.node], task.op), Kind(task.op));
  }
}
