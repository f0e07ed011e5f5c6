// A cluster of groupcache nodes as a step machine (group.go, instance.go).
//
// Every call in progress (Get, Set, Remove, RemoveKeys, and the three requests a peer serves) is
// a task with a program counter. Next says what one atomic action of one task does to its own
// node; everything the scheduler, the clocks, the network and the getter decide is an Input.
module Protocol {
  import opened Views
  import opened Wire
  import Flight
  import Ring

  type Key = string
  type Addr = string
  type Tid = nat

  // A client object: SetPeers makes new clients, so identity is the ring generation and address.
  datatype Client = Client(gen: nat, address: Addr)

  datatype Op =
    | Get(key: Key, nilDest: bool)
    | Set(key: Key, view: View)
    | Remove(key: Key)
    | RemoveKeys(keys: seq<Key>)
    | ServeSet(key: Key, view: View)
    | ServeRemove(keys: seq<Key>)

  // The body of one loadGroup.Lock: main.Add then hot.Remove, or hot.Remove then main.Remove.
  datatype Job = Write(key: Key, view: View) | Erase(key: Key)

  // What follows the critical section.
  datatype Then =
    | ListFor(owner: Option<Client>)
    | EraseMore(rest: seq<Key>, batch: Option<map<Client, seq<Key>>>)
    | Reply

  datatype Parcel = Parcel(to: Client, msg: Op)

  // A fan-out in progress: goroutines not yet sent, requests on their way, and whether any failed.
  datatype Fan = Fan(owners: set<Client>, todo: set<Parcel>, out: map<Tid, Parcel>, failed: bool, listed: bool)

  datatype Pc =
    | Begin
    // Get
    | LookMain(again: bool)
    | LookHot(again: bool)
    | CountHit(again: bool, view: View)
    | CountLoad
    | CountDedup
    | Pick
    | CallPeer(peer: Addr)
    | AwaitPeer(peer: Addr, child: Tid)
    | PopHot(view: View)
    | CountPeer(view: View)
    | PeerFailed(error: Error)
    | RunGetter
    | CountLocal(result: Result)
    | PopMain(view: View)
    // Do
    | Enter
    | Wait(call: Tid)
    | Store(outcome: Outcome)
    | Signal(outcome: Outcome)
    | Delete(outcome: Outcome)
    // Set, Remove, RemoveKeys
    | PickOwner
    | CallOwner(client: Client)
    | AwaitOwner(client: Client, child: Tid)
    | Sort(i: nat, batch: map<Client, seq<Key>>)
    | Acquire(job: Job, next: Then)
    | First(job: Job, next: Then)
    | Second(job: Job, next: Then)
    | Release(job: Job, next: Then)
    | ListPeers(owner: Option<Client>)
    | FanOut(fan: Fan)
    | Ended(outcome: Outcome)

  // What has happened to a task so far; the counters of GroupStats count these marks.
  datatype Trail = Trail(got: bool, hit: bool, rehit: bool, load: bool, dedup: bool, peer: bool,
                         peerFail: bool, peerErr: bool, local: bool, localErr: bool, joined: Option<Tid>,
                         via: Option<Tid>)

  const FRESH := Trail(false, false, false, false, false, false, false, false, false, false, None, None)

  datatype Task = Task(node: Addr, op: Op, pc: Pc, trail: Trail)

  datatype Stats = Stats(gets: nat, hits: nat, loads: nat, dedups: nat, peerLoads: nat, peerErrors: nat,
                         localLoads: nat, localErrs: nat)

  // caching is maxCacheBytes > 0.
  datatype Node = Node(caching: bool, main: map<Key, View>, hot: map<Key, View>,
                       loads: Flight.Group<Result>, sets: Flight.Group<Result>, removes: Flight.Group<Result>,
                       gen: nat, ring: Ring.Ring, stats: Stats)

  datatype GetterOut = Loaded(view: View) | LoadError(error: Error) | LoadPanic

  // One run of a getter.
  datatype LoadRecord = LoadRecord(key: Key, task: Tid, out: GetterOut)

  datatype State = State(nodes: map<Addr, Node>, tasks: map<Tid, Task>, log: seq<LoadRecord>,
                         written: set<(Key, View)>)

  datatype Input =
    | Go
    | At(now: Time)
    | Ctx(live: bool)
    | Load(out: GetterOut)
    | Send(child: Tid)
    | Lose(error: Error)
    | Answer(child: Tid, result: Result)
    | Dispatch(parcel: Parcel, child: Tid)
    | Undelivered(parcel: Parcel)
    | Unanswered(child: Tid)

  datatype Move =
    | Stuck
    | Move(node: Node, task: Task, spawn: Option<Task>, load: Option<GetterOut>)

  // ---------- small helpers ----------

  function To(nd: Node, task: Task, pc: Pc): (m: Move) {
    Move(nd, task.(pc := pc), None, None)
  }

  predicate HasKey(op: Op) {
    op.Get? || op.Set? || op.Remove?
  }

  // The singleflight group an operation goes through.
  function GroupOf(nd: Node, op: Op): (g: Flight.Group<Result>) {
    if op.Get? then nd.loads else if op.Set? then nd.sets else nd.removes
  }

  function WithGroup(nd: Node, op: Op, g: Flight.Group<Result>): (nd': Node) {
    if op.Get? then nd.(loads := g) else if op.Set? then nd.(sets := g) else nd.(removes := g)
  }

  function Others(nd: Node): (cs: set<Client>) {
    set a | a in nd.ring.clients && !nd.ring.clients[a].isSelf :: Client(nd.gen, nd.ring.clients[a].address)
  }

  function Message(op: Op): (msg: Op)
    requires op.Set? || op.Remove?
  {
    if op.Set? then ServeSet(op.key, Carry(op.view)) else ServeRemove([op.key])
  }

  // Which decisions of the environment an action at this point consults.
  predicate Fits(pc: Pc, inp: Input) {
    match pc
    case LookMain(_) => inp.At?
    case LookHot(_) => inp.At?
    case CallPeer(_) => inp.Send? || (inp.Lose? && (inp.error == Canceled || inp.error == Opaque))
    case AwaitPeer(_, _) => inp.Answer? || (inp.Lose? && (inp.error == Canceled || inp.error == Opaque))
    case PeerFailed(_) => inp.Ctx?
    case RunGetter => inp.Load?
    case CallOwner(_) => inp.Send? || inp.Lose?
    case AwaitOwner(_, _) => inp.Answer? || inp.Lose?
    case FanOut(_) => inp.Go? || inp.Dispatch? || inp.Undelivered? || inp.Answer? || inp.Unanswered?
    case _ => inp.Go?
  }

  function Miss(again: bool): (pc: Pc) {
    if again then CountDedup else CountLoad
  }

  // ---------- Get (group.go lines 123-148, 257-383, 407-417) ----------

  function Look(nd: Node, task: Task, inMain: bool, again: bool, now: Time): (m: Move)
    requires task.op.Get?
  {
    var k := task.op.key;
    var cache := if inMain then nd.main else nd.hot;
    var missed := if inMain then LookHot(again) else Miss(again);
    if !nd.caching then To(nd, task, Miss(again))
    else if k !in cache then To(nd, task, missed)
    else if Expired(cache[k], now) then
      To(if inMain then nd.(main := nd.main - {k}) else nd.(hot := nd.hot - {k}), task, missed)
    else To(nd, task, CountHit(again, cache[k]))
  }

  function NextGet(nd: Node, task: Task, inp: Input): (m: Move)
    requires task.op.Get? && Fits(task.pc, inp)
  {
    var k, tr, st := task.op.key, task.trail, nd.stats;
    match task.pc
    case Begin =>
      To(nd.(stats := st.(gets := st.gets + 1)), task.(trail := tr.(got := true)),
         if task.op.nilDest then Ended(Return(Fail(NilSink))) else LookMain(false))
    case LookMain(again) => Look(nd, task, true, again, inp.now)
    case LookHot(again) => Look(nd, task, false, again, inp.now)
    case CountHit(again, v) =>
      To(nd.(stats := st.(hits := st.hits + 1)),
         task.(trail := if again then tr.(rehit := true) else tr.(hit := true)),
         if again then Store(Return(Value(v))) else Ended(Return(Value(v))))
    case CountLoad =>
      To(nd.(stats := st.(loads := st.loads + 1)), task.(trail := tr.(load := true)), Enter)
    case CountDedup =>
      To(nd.(stats := st.(dedups := st.dedups + 1)), task.(trail := tr.(dedup := true)), Pick)
    case Pick =>
      var p := Ring.Pick(nd.ring, k);
      To(nd, task, if p.Some? && !p.value.isSelf then CallPeer(p.value.address) else RunGetter)
    case CallPeer(p) =>
      if inp.Send? then
        Move(nd, task.(pc := AwaitPeer(p, inp.child)), Some(Task(p, Get(k, false), Begin, FRESH)), None)
      else To(nd, task, PeerFailed(inp.error))
    case AwaitPeer(p, child) =>
      if inp.Lose? then To(nd, task, PeerFailed(inp.error))
      else if inp.child != child || inp.result == Done then Stuck
      else To(nd, task.(trail := tr.(via := Some(child))),
              if inp.result.Value? then PopHot(inp.result.view) else PeerFailed(inp.result.error))
    case PopHot(v) =>
      To(if nd.caching then nd.(hot := nd.hot[k := v]) else nd, task, CountPeer(v))
    case CountPeer(v) =>
      To(nd.(stats := st.(peerLoads := st.peerLoads + 1)), task.(trail := tr.(peer := true)), Store(Return(Value(v))))
    case PeerFailed(e) =>
      if Final(e) then To(nd, task.(trail := tr.(peerErr := true)), Store(Return(Fail(e))))
      else
        var nd' := nd.(stats := st.(peerErrors := st.peerErrors + 1));
        if inp.live then To(nd', task.(trail := tr.(peerFail := true)), RunGetter)
        else To(nd', task.(trail := tr.(peerFail := true, peerErr := true)), Store(Return(Fail(e))))
    case RunGetter => Move(nd, task.(pc := AfterGetter(inp.out)), None, Some(inp.out))
    case CountLocal(r) =>
      if r.Value? then
        To(nd.(stats := st.(localLoads := st.localLoads + 1)), task.(trail := tr.(local := true)), PopMain(r.view))
      else
        To(nd.(stats := st.(localErrs := st.localErrs + 1)), task.(trail := tr.(localErr := true)), Store(Return(r)))
    case PopMain(v) =>
      To(if nd.caching then nd.(main := nd.main[k := v]) else nd, task, Store(Return(Value(v))))
    case _ => Stuck
  }

  function AfterGetter(out: GetterOut): (pc: Pc) {
    match out
    case Loaded(v) => CountLocal(Value(v))
    case LoadError(e) => CountLocal(Fail(e))
    case LoadPanic => Signal(Panic)
  }

  // ---------- Do (internal/singleflight/singleflight.go lines 44-72) ----------

  datatype DoMove = Blocked | DoMove(group: Flight.Group<Result>, pc: Pc)

  function NextDo(g: Flight.Group<Result>, t: Tid, op: Op, pc: Pc): (d: DoMove)
    requires HasKey(op)
  {
    match pc
    case Enter =>
      if g.mu.Some? then Blocked
      else if op.key in g.m then DoMove(g, Wait(g.m[op.key]))
      else DoMove(Flight.Lead(g, op.key, t, Fail(LeaderPanicked)), if op.Get? then LookMain(true) else PickOwner)
    case Wait(c) =>
      if c in g.calls && g.calls[c].done then DoMove(g, Ended(Return(g.calls[c].result))) else Blocked
    case Store(o) =>
      if t in g.calls && o.Return? then DoMove(Flight.Store(g, t, o.result), Signal(o)) else Blocked
    case Signal(o) =>
      if t in g.calls then DoMove(Flight.Signal(g, t), Delete(o)) else Blocked
    case Delete(o) =>
      if g.mu.Some? then Blocked else DoMove(Flight.Delete(g, op.key), Ended(o))
    case _ => Blocked
  }

  function NextFlight(nd: Node, t: Tid, task: Task): (m: Move)
    requires HasKey(task.op)
  {
    var d := NextDo(GroupOf(nd, task.op), t, task.op, task.pc);
    if d.Blocked? then Stuck
    else To(WithGroup(nd, task.op, d.group),
            if d.pc.Wait? then task.(trail := task.trail.(joined := Some(d.pc.call))) else task, d.pc)
  }

  // ---------- loadGroup.Lock around the caches (group.go lines 170-173, 427-437, 447-450) ----------

  function Critical(nd: Node, t: Tid, task: Task): (m: Move) {
    match task.pc
    case Acquire(j, th) =>
      if nd.loads.mu.Some? then Stuck
      else To(nd.(loads := nd.loads.(mu := Some(t))), task, First(j, th))
    case First(j, th) =>
      To(if j.Write? then nd.(main := nd.main[j.key := j.view]) else nd.(hot := nd.hot - {j.key}),
         task, Second(j, th))
    case Second(j, th) =>
      To(if j.Write? then nd.(hot := nd.hot - {j.key}) else nd.(main := nd.main - {j.key}),
         task, Release(j, th))
    case Release(_, th) =>
      To(nd.(loads := nd.loads.(mu := None)), task, AfterLock(th))
    case _ => Stuck
  }

  function AfterLock(th: Then): (pc: Pc) {
    match th
    case ListFor(owner) => ListPeers(owner)
    case EraseMore(rest, batch) => EraseNext(rest, batch)
    case Reply => Ended(Return(Done))
  }

  function EraseNext(rest: seq<Key>, batch: Option<map<Client, seq<Key>>>): (pc: Pc) {
    if rest != [] then Acquire(Erase(rest[0]), EraseMore(rest[1..], batch))
    else if batch.None? then Ended(Return(Done))
    else FanOut(Fan(batch.value.Keys, OwnerParcels(batch.value), map[], false, false))
  }

  // Local erasure of a list of keys, skipped altogether when caching is off.
  function EraseAll(nd: Node, keys: seq<Key>, batch: Option<map<Client, seq<Key>>>): (pc: Pc) {
    EraseNext(if nd.caching then keys else [], batch)
  }

  // ---------- Set and Remove (group.go lines 150-254) ----------

  function LocalPhase(nd: Node, op: Op, owner: Option<Client>): (pc: Pc)
    requires op.Set? || op.Remove?
  {
    if op.Set? then Acquire(Write(op.key, op.view), ListFor(owner))
    else if nd.caching then Acquire(Erase(op.key), ListFor(owner))
    else ListPeers(owner)
  }

  function NextWrite(nd: Node, task: Task, inp: Input): (m: Move)
    requires (task.op.Set? || task.op.Remove?) && Fits(task.pc, inp)
  {
    var op := task.op;
    match task.pc
    case Begin =>
      To(nd, task,
         if op.Set? && op.key == "" then Ended(Return(Fail(EmptyKey)))
         else if op.Set? && !nd.caching then Ended(Return(Done))
         else Enter)
    case PickOwner =>
      var p := Ring.Pick(nd.ring, op.key);
      To(nd, task,
         if p.None? then LocalPhase(nd, op, None)
         else if p.value.isSelf then LocalPhase(nd, op, Some(Client(nd.gen, p.value.address)))
         else CallOwner(Client(nd.gen, p.value.address)))
    case CallOwner(c) =>
      if inp.Lose? then To(nd, task, Store(Return(Fail(inp.error))))
      else Move(nd, task.(pc := AwaitOwner(c, inp.child)), Some(Task(c.address, Message(op), Begin, FRESH)), None)
    case AwaitOwner(c, child) =>
      if inp.Lose? then To(nd, task, Store(Return(Fail(inp.error))))
      else if inp.child != child then Stuck
      else To(nd, task, if inp.result.Fail? then Store(Return(inp.result)) else LocalPhase(nd, op, Some(c)))
    case ListPeers(owner) =>
      if op.Set? && owner.None? && Others(nd) != {} then To(nd, task, Signal(Panic))
      else To(nd, task, FanOut(Fan({}, RestParcels(nd, op, owner), map[], false, true)))
    case _ => Stuck
  }

  // Set compares addresses, Remove compares client objects; both skip this node itself.
  function RestParcels(nd: Node, op: Op, owner: Option<Client>): (ps: set<Parcel>)
    requires op.Set? || op.Remove?
  {
    set c | c in Others(nd) && (owner.Some? ==> if op.Set? then c.address != owner.value.address else c != owner.value)
      :: Parcel(c, Message(op))
  }

  // ---------- RemoveKeys (group.go lines 453-522) ----------

  function OwnerParcels(batch: map<Client, seq<Key>>): (ps: set<Parcel>) {
    set c | c in batch :: Parcel(c, ServeRemove(batch[c]))
  }

  // Clients that are not among the owners get the whole batch.
  function BroadcastParcels(nd: Node, keys: seq<Key>, owners: set<Client>): (ps: set<Parcel>) {
    set c | c in Others(nd) && c !in owners :: Parcel(c, ServeRemove(keys))
  }

  function Appended(batch: map<Client, seq<Key>>, c: Client, k: Key): (batch': map<Client, seq<Key>>) {
    batch[c := (if c in batch then batch[c] else []) + [k]]
  }

  function NextRemoveKeys(nd: Node, task: Task): (m: Move)
    requires task.op.RemoveKeys?
  {
    var keys := task.op.keys;
    match task.pc
    case Begin => To(nd, task, if keys == [] then Ended(Return(Done)) else Sort(0, map[]))
    case Sort(i, batch) =>
      if i < |keys| then
        var p := Ring.Pick(nd.ring, keys[i]);
        To(nd, task, Sort(i + 1, if p.Some? && !p.value.isSelf
                                 then Appended(batch, Client(nd.gen, p.value.address), keys[i]) else batch))
      else To(nd, task, EraseAll(nd, keys, Some(batch)))
    case FanOut(f) =>
      if f.listed then Stuck
      else To(nd, task, FanOut(f.(todo := f.todo + BroadcastParcels(nd, keys, f.owners), listed := true)))
    case _ => Stuck
  }

  // ---------- fan-out of Set, Remove and RemoveKeys ----------

  function NextFan(nd: Node, task: Task, inp: Input): (m: Move)
    requires task.pc.FanOut?
  {
    var f := task.pc.fan;
    match inp
    case Dispatch(p, child) =>
      if p in f.todo && child !in f.out then
        Move(nd, task.(pc := FanOut(f.(todo := f.todo - {p}, out := f.out[child := p]))),
             Some(Task(p.to.address, p.msg, Begin, FRESH)), None)
      else Stuck
    case Undelivered(p) =>
      if p in f.todo then To(nd, task, FanOut(f.(todo := f.todo - {p}, failed := true))) else Stuck
    case Answer(c, r) =>
      if c in f.out then
        To(nd, task, FanOut(f.(out := f.out - {c}, failed := f.failed || r.Fail?)))
      else Stuck
    case Unanswered(c) =>
      if c in f.out then To(nd, task, FanOut(f.(out := f.out - {c}, failed := true))) else Stuck
    case Go =>
      if f.todo == {} && f.out == map[] && f.listed then
        var r := if f.failed && !task.op.Set? then Fail(Many) else Done;
        To(nd, task, if HasKey(task.op) then Store(Return(r)) else Ended(Return(r)))
      else if task.op.RemoveKeys? then NextRemoveKeys(nd, task)
      else Stuck
    case _ => Stuck
  }

  // ---------- requests served for a peer (group.go lines 421-451) ----------

  function NextServe(nd: Node, task: Task): (m: Move)
    requires task.op.ServeSet? || task.op.ServeRemove?
  {
    if task.pc != Begin then Stuck
    else
      To(nd, task,
         if task.op.ServeRemove? then EraseAll(nd, task.op.keys, None)
         else if nd.caching then Acquire(Write(task.op.key, task.op.view), Reply)
         else Ended(Return(Done)))
  }

  // ---------- one atomic action of task t ----------

  predicate InDo(pc: Pc) {
    pc.Enter? || pc.Wait? || pc.Store? || pc.Signal? || pc.Delete?
  }

  predicate InLock(pc: Pc) {
    pc.Acquire? || pc.First? || pc.Second? || pc.Release?
  }

  function Next(nd: Node, t: Tid, task: Task, inp: Input): (m: Move) {
    if task.pc.Ended? || !Fits(task.pc, inp) then Stuck
    else if InDo(task.pc) then
      if HasKey(task.op) then NextFlight(nd, t, task) else Stuck
    else if InLock(task.pc) then Critical(nd, t, task)
    else if task.pc.FanOut? then NextFan(nd, task, inp)
    else
      match task.op
      case Get(_, _) => NextGet(nd, task, inp)
      case Set(_, _) => NextWrite(nd, task, inp)
      case Remove(_) => NextWrite(nd, task, inp)
      case RemoveKeys(_) => NextRemoveKeys(nd, task)
      case _ => NextServe(nd, task)
  }

  // ---------- the machine ----------

  datatype Step =
    | Call(t: Tid, node: Addr, op: Op)               // a client starts an operation
    | Run(t: Tid, input: Input)                      // one atomic action of a task
    | Evict(node: Addr, key: Key, hot: bool)         // a cache drops an entry to stay within its limit
    | SetPeers(node: Addr, ring: Ring.Ring)          // the picker is replaced

  predicate ClientOp(op: Op) {
    op.Get? || op.Set? || op.Remove? || op.RemoveKeys?
  }

  // The child a request creates, if the input creates one.
  function ChildOf(inp: Input): (c: Option<Tid>) {
    match inp
    case Send(c) => Some(c)
    case Dispatch(_, c) => Some(c)
    case _ => None
  }

  ghost predicate Enabled(s: State, step: Step) {
    match step
    case Call(t, n, op) => t !in s.tasks && n in s.nodes && ClientOp(op)
    case Evict(n, _, _) => n in s.nodes
    case SetPeers(n, _) => n in s.nodes
    case Run(t, inp) =>
      && t in s.tasks
      && s.tasks[t].node in s.nodes
      && var m := Next(s.nodes[s.tasks[t].node], t, s.tasks[t], inp);
         && m.Move?
         && (m.spawn.Some? ==> ChildOf(inp).Some? && ChildOf(inp).value !in s.tasks && m.spawn.value.node in s.nodes)
         && (inp.Answer? ==> inp.child in s.tasks && s.tasks[inp.child].pc.Ended?
                             && inp.result == OverWire(s.tasks[inp.child].pc.outcome))
  }

  ghost function Apply(s: State, step: Step): (s': State)
    requires Enabled(s, step)
  {
    match step
    case Call(t, n, op) =>
      s.(tasks := s.tasks[t := Task(n, op, Begin, FRESH)],
         written := if op.Set? then s.written + {(op.key, op.view)} else s.written)
    case Evict(n, k, hot) =>
      s.(nodes := s.nodes[n := if hot then s.nodes[n].(hot := s.nodes[n].hot - {k})
                               else s.nodes[n].(main := s.nodes[n].main - {k})])
    case SetPeers(n, ring) =>
      s.(nodes := s.nodes[n := s.nodes[n].(ring := ring, gen := s.nodes[n].gen + 1)])
    case Run(t, inp) =>
      Moved(s, t, Next(s.nodes[s.tasks[t].node], t, s.tasks[t], inp), ChildOf(inp))
  }

  // The cluster after task t made the move.
  ghost function Moved(s: State, t: Tid, m: Move, child: Option<Tid>): (s': State)
    requires t in s.tasks && m.Move?
    requires m.spawn.Some? ==> child.Some?
  {
    var tasks := s.tasks[t := m.task];
    State(s.nodes[s.tasks[t].node := m.node],
          if m.spawn.Some? then tasks[child.value := m.spawn.value] else tasks,
          if m.load.Some? then s.log + [LoadRecord(KeyOf(s.tasks[t].op), t, m.load.value)] else s.log,
          s.written)
  }

  function KeyOf(op: Op): (k: Key) {
    if HasKey(op) || op.ServeSet? then op.key else ""
  }

  // ---------- runs ----------

  ghost predicate IsRun(ss: seq<State>, steps: seq<Step>) {
    && |ss| == |steps| + 1
    && forall i :: 0 <= i < |steps| ==> Enabled(ss[i], steps[i]) && ss[i + 1] == Apply(ss[i], steps[i])
  }

  // No call is in progress and none has run; caches, rings and statistics are arbitrary
  // except that the counters start at zero.
  ghost predicate Init(s: State) {
    && s.tasks == map[] && s.log == [] && s.written == {}
    && forall n :: n in s.nodes ==>
         s.nodes[n].loads == Flight.Empty() && s.nodes[n].sets == Flight.Empty() && s.nodes[n].removes == Flight.Empty()
         && s.nodes[n].stats == Stats(0, 0, 0, 0, 0, 0, 0, 0)
  }
}
