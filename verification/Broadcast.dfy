// Set, Remove and RemoveKeys reach the nodes they are meant to reach: when such an operation leads
// its own flight, nothing else changes the copies of the key meanwhile, and a Set loses no request,
// every node it addresses holds the new value (or no copy) when it returns nil, whatever rings are
// installed between picking the owner and listing the peers.
module Broadcast {
  import opened Views
  import opened Wire
  import opened Protocol
  import Flights
  import Quiet
  import Requests
  import Ring

  // What an operation started at origin is to achieve for one key: a value everywhere, or no copy.
  datatype Aim = Aim(origin: Addr, key: Key, view: Option<View>)

  // The caller keeps the value as given, the peers keep it as it comes over the wire.
  function Expected(a: Addr, aim: Aim): (v: View)
    requires aim.view.Some?
  {
    if a == aim.origin then aim.view.value else Carry(aim.view.value)
  }

  // After the first of the two steps under the lock.
  predicate Half(nd: Node, a: Addr, aim: Aim) {
    nd.caching ==>
      if aim.view.Some? then aim.key in nd.main && nd.main[aim.key] == Expected(a, aim) else aim.key !in nd.hot
  }

  // A node without caching never looks at its caches.
  predicate Good(nd: Node, a: Addr, aim: Aim) {
    nd.caching ==>
      && aim.key !in nd.hot
      && if aim.view.Some? then aim.key in nd.main && nd.main[aim.key] == Expected(a, aim) else aim.key !in nd.main
  }

  predicate GoodAt(s: State, a: Addr, aim: Aim) {
    a in s.nodes && Good(s.nodes[a], a, aim)
  }

  // The request delivers the aim to a peer.
  predicate Serves(op: Op, a: Addr, aim: Aim) {
    if aim.view.Some? then op == ServeSet(aim.key, Carry(aim.view.value)) && a != aim.origin
    else op.ServeRemove? && aim.key in op.keys
  }

  // The operation itself.
  predicate Starts(op: Op, a: Addr, aim: Aim) {
    && a == aim.origin
    && if aim.view.Some? then op == Set(aim.key, aim.view.value)
       else op == Remove(aim.key) || (op.RemoveKeys? && aim.key in op.keys)
  }

  predicate Acts(op: Op, a: Addr, aim: Aim) {
    Starts(op, a, aim) || Serves(op, a, aim)
  }

  predicate IsServe(op: Op) {
    op.ServeSet? || op.ServeRemove?
  }

  predicate Lossless(inp: Input) {
    !inp.Lose? && !inp.Undelivered? && !inp.Unanswered?
  }

  // A step of another task does the aim no harm: it leaves the copies of the key where they are,
  // or, when there are to be none, at least adds none.
  ghost predicate Harmless(nd: Node, nd': Node, aim: Aim) {
    if aim.view.Some? then Quiet.SameAt(nd, nd', aim.key)
    else (aim.key in nd'.main ==> aim.key in nd.main) && (aim.key in nd'.hot ==> aim.key in nd.hot)
  }

  // A Get of the key may look, wait, load and hit, as long as the step itself does no harm.
  ghost predicate Careful(s: State, u: Tid, inp: Input, aim: Aim)
    requires u in s.tasks
  {
    && Quiet.SparesTask(s.tasks[u], aim.key)
    && (Quiet.IsGet(s.tasks[u].op, aim.key) && s.tasks[u].node in s.nodes ==>
          var m := Next(s.nodes[s.tasks[u].node], u, s.tasks[u], inp);
          m.Move? ==> Harmless(s.nodes[s.tasks[u].node], m.node, aim))
  }

  // Nothing else changes the copies of the key: only t, requests delivering the same aim that were
  // sent after the tasks in before, and careful tasks take steps. A Set loses no request; it would
  // not report the loss.
  ghost predicate Calm(s: State, step: Step, t: Tid, aim: Aim, before: set<Tid>) {
    match step
    case Run(u, inp) =>
      u in s.tasks ==>
        if u == t then aim.view.Some? ==> Lossless(inp)
        else (u !in before && Serves(s.tasks[u].op, s.tasks[u].node, aim)) || Careful(s, u, inp, aim)
    case Evict(_, k, _) => aim.view.Some? ==> k != aim.key
    case SetPeers(n, ring) => n == aim.origin ==> KnowsItself(ring, n)
    case Call(_, _, _) => true
  }

  // The ring of a node marks as self exactly the node's own address.
  ghost predicate KnowsItself(r: Ring.Ring, n: Addr) {
    && (forall i :: 0 <= i < |r.points| ==> (r.points[i].peer.isSelf <==> r.points[i].peer.address == n))
    && (forall a :: a in r.clients ==> (r.clients[a].isSelf <==> r.clients[a].address == n))
  }

  // ---------- the node a task works on ----------

  // The key is still to be handled by this task.
  predicate Todo(pc: Pc, k: Key) {
    InLock(pc) && ((pc.job.key == k && (pc.Acquire? || pc.First?)) || (pc.next.EraseMore? && k in pc.next.rest))
  }

  predicate Settled(task: Task) {
    && (task.pc.Store? || task.pc.Signal? || task.pc.Delete? || task.pc.Ended?)
    && task.pc.outcome == Return(Done) && task.trail.joined.None?
  }

  predicate LocalDone(task: Task) {
    task.pc.ListPeers? || task.pc.FanOut? || Settled(task)
  }

  predicate Local(nd: Node, a: Addr, task: Task, aim: Aim) {
    && (InLock(task.pc) ==>
          Todo(task.pc, aim.key) || (task.pc.Second? && task.pc.job.key == aim.key && Half(nd, a, aim))
          || Good(nd, a, aim))
    && (IsServe(task.op) ==> task.trail.joined.None? && (task.pc.Ended? ==> Settled(task)))
    && (task.pc.Wait? ==> task.trail.joined.Some?)
    && (LocalDone(task) ==> Good(nd, a, aim))
  }

  ghost predicate ActMove(nd: Node, task: Task, m: Move, aim: Aim)
    requires m.Move?
  {
    && m.task.op == task.op && m.task.node == task.node
    && m.node.caching == nd.caching && m.node.ring == nd.ring && m.node.gen == nd.gen
    && (Good(nd, task.node, aim) ==> Good(m.node, task.node, aim))
    && (Half(nd, task.node, aim) ==> Half(m.node, task.node, aim))
    && (Local(nd, task.node, task, aim) ==> Local(m.node, task.node, m.task, aim))
  }

  lemma NextIsActMove(nd: Node, t: Tid, task: Task, inp: Input, m: Move, aim: Aim)
    requires m == Next(nd, t, task, inp) && m.Move? && Flights.Shape(task.op, task.pc)
    requires Flights.LockFits(task.op, task.pc)
    requires Acts(task.op, task.node, aim)
    ensures ActMove(nd, task, m, aim)
  {
    if InDo(task.pc) {
      DoActs(nd, t, task, m, aim);
    } else if InLock(task.pc) {
      LockActs(nd, t, task, m, aim);
    } else if task.pc.FanOut? {
      assert m.node == nd;
    } else if task.op.Set? || task.op.Remove? {
      WriteActs(nd, task, inp, m, aim);
    } else {
      assert m.node == nd;
    }
  }

  lemma DoActs(nd: Node, t: Tid, task: Task, m: Move, aim: Aim)
    requires HasKey(task.op) && InDo(task.pc) && m == NextFlight(nd, t, task) && m.Move?
    requires Acts(task.op, task.node, aim)
    ensures ActMove(nd, task, m, aim)
  {
  }

  lemma LockActs(nd: Node, t: Tid, task: Task, m: Move, aim: Aim)
    requires InLock(task.pc) && m == Critical(nd, t, task) && m.Move? && Flights.LockFits(task.op, task.pc)
    requires Acts(task.op, task.node, aim)
    ensures ActMove(nd, task, m, aim)
  {
    if task.pc.Acquire? || task.pc.Release? {
      EdgeActs(nd, t, task, m, aim);
    } else {
      BodyActs(nd, t, task, m, aim);
    }
  }

  // Taking and releasing the lock touches no cache.
  lemma EdgeActs(nd: Node, t: Tid, task: Task, m: Move, aim: Aim)
    requires task.pc.Acquire? || task.pc.Release?
    requires m == Critical(nd, t, task) && m.Move? && Flights.LockFits(task.op, task.pc)
    requires Acts(task.op, task.node, aim)
    ensures ActMove(nd, task, m, aim)
  {
    assert m.node.main == nd.main && m.node.hot == nd.hot;
  }

  lemma BodyActs(nd: Node, t: Tid, task: Task, m: Move, aim: Aim)
    requires task.pc.First? || task.pc.Second?
    requires m == Critical(nd, t, task) && m.Move? && Flights.LockFits(task.op, task.pc)
    requires Acts(task.op, task.node, aim)
    ensures ActMove(nd, task, m, aim)
  {
  }

  lemma WriteActs(nd: Node, task: Task, inp: Input, m: Move, aim: Aim)
    requires (task.op.Set? || task.op.Remove?) && Fits(task.pc, inp) && m == NextWrite(nd, task, inp) && m.Move?
    requires Acts(task.op, task.node, aim)
    ensures ActMove(nd, task, m, aim)
  {
    assert m.node == nd;
    if task.pc.PickOwner? || task.pc.AwaitOwner? {
      OwnerActs(nd, task, inp, m, aim);
    }
  }

  // Once the owner is known to be dealt with, the key is handled here.
  lemma OwnerActs(nd: Node, task: Task, inp: Input, m: Move, aim: Aim)
    requires (task.op.Set? || task.op.Remove?) && Fits(task.pc, inp) && m == NextWrite(nd, task, inp) && m.Move?
    requires Acts(task.op, task.node, aim) && (task.pc.PickOwner? || task.pc.AwaitOwner?)
    ensures ActMove(nd, task, m, aim)
  {
    assert m.node == nd;
  }

  // ---------- what the operation still owes ----------

  ghost predicate BatchOwes(batch: map<Client, seq<Key>>, a: Addr, aim: Aim) {
    aim.view.None? && exists c :: c in batch && c.address == a && aim.key in batch[c]
  }

  ghost predicate FanOwes(f: Fan, a: Addr, aim: Aim) {
    || (exists p :: p in f.todo && p.to.address == a && Serves(p.msg, a, aim))
    || (exists c :: c in f.out && f.out[c].to.address == a && Serves(f.out[c].msg, a, aim))
  }

  // A request that delivers the aim to address a is yet to be sent or is on its way.
  ghost predicate Owed(pc: Pc, a: Addr, aim: Aim) {
    if pc.FanOut? then FanOwes(pc.fan, a, aim)
    else if pc.Sort? then BatchOwes(pc.batch, a, aim)
    else InLock(pc) && pc.next.EraseMore? && pc.next.batch.Some? && BatchOwes(pc.next.batch.value, a, aim)
  }

  // The owner that has been dealt with before the peers are listed.
  function OwnerOf(pc: Pc): (c: Option<Client>) {
    if pc.ListPeers? then pc.owner else if InLock(pc) && pc.next.ListFor? then pc.next.owner else None
  }

  // The request of this answer delivered the aim to address a.
  ghost predicate Delivers(pc: Pc, inp: Input, a: Addr, aim: Aim) {
    && inp.Answer?
    && match pc
       case AwaitOwner(c, child) => inp.child == child && c.address == a && a != aim.origin
       case FanOut(f) => inp.child in f.out && f.out[inp.child].to.address == a && Serves(f.out[inp.child].msg, a, aim)
       case _ => false
  }

  // The operation will not return nil.
  predicate Broken(task: Task) {
    if task.pc.FanOut? then task.pc.fan.failed && !task.op.Set?
    else (task.pc.Store? || task.pc.Signal? || task.pc.Delete? || task.pc.Ended?) && task.pc.outcome != Return(Done)
  }

  predicate OwnerElsewhere(pc: Pc, origin: Addr) {
    (pc.CallOwner? || pc.AwaitOwner?) ==> pc.client.address != origin
  }

  ghost predicate OriginMove(task: Task, inp: Input, m: Move, a: Addr, aim: Aim)
    requires m.Move?
  {
    && (OwnerElsewhere(task.pc, aim.origin) ==> OwnerElsewhere(m.task.pc, aim.origin))
    && (OwnerOf(m.task.pc).Some? && OwnerOf(m.task.pc).value.address == a && OwnerElsewhere(task.pc, aim.origin) ==>
          OwnerOf(task.pc) == OwnerOf(m.task.pc) || a == aim.origin || Delivers(task.pc, inp, a, aim))
    && (Owed(task.pc, a, aim) ==> Owed(m.task.pc, a, aim) || Delivers(task.pc, inp, a, aim) || Broken(m.task))
    && (Broken(task) ==> Broken(m.task))
  }

  lemma NextIsOriginMove(nd: Node, t: Tid, task: Task, inp: Input, m: Move, a: Addr, aim: Aim)
    requires m == Next(nd, t, task, inp) && m.Move? && Flights.Shape(task.op, task.pc)
    requires Flights.LockFits(task.op, task.pc)
    requires Starts(task.op, task.node, aim) && (task.op.Set? ==> Lossless(inp)) && KnowsItself(nd.ring, aim.origin)
    ensures OriginMove(task, inp, m, a, aim)
  {
    if InDo(task.pc) {
    } else if InLock(task.pc) {
      LockIsOriginMove(nd, t, task, m, a, aim);
    } else if task.pc.FanOut? {
      FanIsOriginMove(nd, task, inp, m, a, aim);
    } else if task.op.RemoveKeys? {
      SortIsOriginMove(nd, task, m, a, aim);
    } else {
      WriteIsOriginMove(nd, task, inp, m, a, aim);
    }
  }

  // Handing the batch over to the fan-out keeps what is owed.
  lemma BatchHandedOver(rest: seq<Key>, batch: map<Client, seq<Key>>, a: Addr, aim: Aim)
    requires BatchOwes(batch, a, aim)
    ensures Owed(EraseNext(rest, Some(batch)), a, aim)
  {
    var c :| c in batch && c.address == a && aim.key in batch[c];
    assert Parcel(c, ServeRemove(batch[c])) in OwnerParcels(batch);
  }

  lemma LockIsOriginMove(nd: Node, t: Tid, task: Task, m: Move, a: Addr, aim: Aim)
    requires InLock(task.pc) && m == Critical(nd, t, task) && m.Move? && Flights.LockFits(task.op, task.pc)
    requires Starts(task.op, task.node, aim)
    ensures OriginMove(task, Go, m, a, aim)
  {
    if task.pc.Release? && Owed(task.pc, a, aim) {
      BatchHandedOver(task.pc.next.rest, task.pc.next.batch.value, a, aim);
    }
  }

  lemma SortIsOriginMove(nd: Node, task: Task, m: Move, a: Addr, aim: Aim)
    requires task.op.RemoveKeys? && !task.pc.FanOut? && !InLock(task.pc) && m == NextRemoveKeys(nd, task) && m.Move?
    ensures OriginMove(task, Go, m, a, aim)
  {
    if Owed(task.pc, a, aim) {
      var batch := task.pc.batch;
      var c :| c in batch && c.address == a && aim.key in batch[c];
      if m.task.pc.Sort? {
        assert c in m.task.pc.batch && aim.key in m.task.pc.batch[c];
      } else {
        BatchHandedOver(if nd.caching then task.op.keys else [], batch, a, aim);
      }
    }
  }

  // What the fan-out still has to do before and after a step of it; what is lost is noted.
  ghost predicate FanMove(f: Fan, inp: Input, f': Fan) {
    && (forall p :: p in f.todo ==>
          p in f'.todo || f'.failed || (inp.Dispatch? && inp.child in f'.out && f'.out[inp.child] == p))
    && (forall c :: c in f.out ==>
          (c in f'.out && f'.out[c] == f.out[c]) || f'.failed || (inp.Answer? && inp.child == c))
    && (f.failed ==> f'.failed)
  }

  // The same for a step that loses nothing.
  ghost predicate LosslessFanMove(f: Fan, inp: Input, f': Fan) {
    && (forall p :: p in f.todo ==>
          p in f'.todo || (inp.Dispatch? && inp.child in f'.out && f'.out[inp.child] == p))
    && (forall c :: c in f.out ==>
          (c in f'.out && f'.out[c] == f.out[c]) || (inp.Answer? && inp.child == c))
  }

  lemma FanMoves(nd: Node, task: Task, inp: Input, m: Move)
    requires task.pc.FanOut? && m == NextFan(nd, task, inp) && m.Move? && m.task.pc.FanOut?
    ensures FanMove(task.pc.fan, inp, m.task.pc.fan)
    ensures Lossless(inp) ==> LosslessFanMove(task.pc.fan, inp, m.task.pc.fan)
  {
  }

  lemma FanKeepsOwing(f: Fan, inp: Input, f': Fan, a: Addr, aim: Aim)
    requires FanMove(f, inp, f') && FanOwes(f, a, aim)
    ensures FanOwes(f', a, aim) || Delivers(FanOut(f), inp, a, aim) || f'.failed
  {
    if p :| p in f.todo && p.to.address == a && Serves(p.msg, a, aim) {
      assert p in f'.todo || f'.failed || (inp.Dispatch? && inp.child in f'.out && f'.out[inp.child] == p);
    } else {
      var c :| c in f.out && f.out[c].to.address == a && Serves(f.out[c].msg, a, aim);
      assert (c in f'.out && f'.out[c] == f.out[c]) || f'.failed || (inp.Answer? && inp.child == c);
    }
  }

  lemma LosslessKeepsOwing(f: Fan, inp: Input, f': Fan, a: Addr, aim: Aim)
    requires LosslessFanMove(f, inp, f') && FanOwes(f, a, aim)
    ensures FanOwes(f', a, aim) || Delivers(FanOut(f), inp, a, aim)
  {
    if p :| p in f.todo && p.to.address == a && Serves(p.msg, a, aim) {
      assert p in f'.todo || (inp.Dispatch? && inp.child in f'.out && f'.out[inp.child] == p);
    } else {
      var c :| c in f.out && f.out[c].to.address == a && Serves(f.out[c].msg, a, aim);
      assert (c in f'.out && f'.out[c] == f.out[c]) || (inp.Answer? && inp.child == c);
    }
  }

  lemma FanIsOriginMove(nd: Node, task: Task, inp: Input, m: Move, a: Addr, aim: Aim)
    requires task.pc.FanOut? && m == NextFan(nd, task, inp) && m.Move? && (task.op.Set? ==> Lossless(inp))
    ensures OriginMove(task, inp, m, a, aim)
  {
    if m.task.pc.FanOut? {
      FanMoves(nd, task, inp, m);
      FanGoesOn(task, inp, m, a, aim);
    }
  }

  lemma FanGoesOn(task: Task, inp: Input, m: Move, a: Addr, aim: Aim)
    requires m.Move? && task.pc.FanOut? && m.task.pc.FanOut? && m.task.op == task.op
    requires FanMove(task.pc.fan, inp, m.task.pc.fan)
    requires task.op.Set? ==> LosslessFanMove(task.pc.fan, inp, m.task.pc.fan)
    ensures OriginMove(task, inp, m, a, aim)
  {
    if Owed(task.pc, a, aim) && task.op.Set? {
      LosslessKeepsOwing(task.pc.fan, inp, m.task.pc.fan, a, aim);
    } else if Owed(task.pc, a, aim) {
      FanKeepsOwing(task.pc.fan, inp, m.task.pc.fan, a, aim);
    }
  }

  lemma WriteIsOriginMove(nd: Node, task: Task, inp: Input, m: Move, a: Addr, aim: Aim)
    requires (task.op.Set? || task.op.Remove?) && Fits(task.pc, inp) && m == NextWrite(nd, task, inp) && m.Move?
    requires !InDo(task.pc) && KnowsItself(nd.ring, aim.origin)
    ensures OriginMove(task, inp, m, a, aim)
  {
  }

  // ---------- the invariant ----------

  ghost predicate ServeInv(s: State, u: Tid, before: set<Tid>, aim: Aim)
    requires u in s.tasks
  {
    u !in before && Serves(s.tasks[u].op, s.tasks[u].node, aim) ==>
      s.tasks[u].node in s.nodes && Local(s.nodes[s.tasks[u].node], s.tasks[u].node, s.tasks[u], aim)
  }

  ghost predicate NewKids(pc: Pc, before: set<Tid>) {
    && (pc.AwaitOwner? ==> pc.child !in before)
    && (pc.FanOut? ==> forall c :: c in pc.fan.out ==> c !in before)
  }

  // Each of the targets already has what it should, or a request to it is on the way, unless the
  // operation is going to report an error.
  ghost predicate OriginInv(s: State, t: Tid, before: set<Tid>, aim: Aim, targets: set<Addr>) {
    && t in s.tasks && s.tasks[t].node in s.nodes && Starts(s.tasks[t].op, s.tasks[t].node, aim)
    && KnowsItself(s.nodes[aim.origin].ring, aim.origin)
    && Local(s.nodes[aim.origin], aim.origin, s.tasks[t], aim)
    && OwnerElsewhere(s.tasks[t].pc, aim.origin) && NewKids(s.tasks[t].pc, before)
    && (OwnerOf(s.tasks[t].pc).Some? ==>
          var a := OwnerOf(s.tasks[t].pc).value.address; a == aim.origin || GoodAt(s, a, aim))
    && (forall a :: a in targets ==> GoodAt(s, a, aim) || Owed(s.tasks[t].pc, a, aim) || Broken(s.tasks[t]))
  }

  ghost predicate Inv(s: State, t: Tid, before: set<Tid>, aim: Aim, targets: set<Addr>) {
    && before <= s.tasks.Keys
    && (forall u {:trigger ServeInv(s, u, before, aim)} :: u in s.tasks ==> ServeInv(s, u, before, aim))
    && OriginInv(s, t, before, aim, targets)
  }

  // No node loses what it has achieved.
  ghost predicate Keeps(s: State, s': State, aim: Aim) {
    forall a :: a in s.nodes ==>
      && a in s'.nodes && s'.nodes[a].caching == s.nodes[a].caching
      && (Good(s.nodes[a], a, aim) ==> Good(s'.nodes[a], a, aim))
      && (Half(s.nodes[a], a, aim) ==> Half(s'.nodes[a], a, aim))
  }

  lemma LocalKept(nd: Node, nd': Node, a: Addr, task: Task, aim: Aim)
    requires Local(nd, a, task, aim)
    requires Good(nd, a, aim) ==> Good(nd', a, aim)
    requires Half(nd, a, aim) ==> Half(nd', a, aim)
    ensures Local(nd', a, task, aim)
  {
  }

  lemma OthersKept(s: State, s': State, u: Tid, before: set<Tid>, aim: Aim)
    requires u in s.tasks && u in s'.tasks && s'.tasks[u] == s.tasks[u] && Keeps(s, s', aim)
    requires ServeInv(s, u, before, aim)
    ensures ServeInv(s', u, before, aim)
  {
    if u !in before && Serves(s.tasks[u].op, s.tasks[u].node, aim) {
      LocalKept(s.nodes[s.tasks[u].node], s'.nodes[s.tasks[u].node], s.tasks[u].node, s.tasks[u], aim);
    }
  }

  // t itself stands still.
  lemma OriginKept(s: State, s': State, t: Tid, before: set<Tid>, aim: Aim, targets: set<Addr>)
    requires OriginInv(s, t, before, aim, targets) && Keeps(s, s', aim)
    requires t in s'.tasks && s'.tasks[t] == s.tasks[t] && KnowsItself(s'.nodes[aim.origin].ring, aim.origin)
    ensures OriginInv(s', t, before, aim, targets)
  {
    LocalKept(s.nodes[aim.origin], s'.nodes[aim.origin], aim.origin, s.tasks[t], aim);
  }

  // A request that delivers the aim has done so once it is answered.
  lemma DeliveredIsGood(s: State, t: Tid, inp: Input, a: Addr, before: set<Tid>, aim: Aim)
    requires Requests.Inv(s) && t in s.tasks && Starts(s.tasks[t].op, s.tasks[t].node, aim)
    requires NewKids(s.tasks[t].pc, before)
    requires forall u {:trigger ServeInv(s, u, before, aim)} :: u in s.tasks ==> ServeInv(s, u, before, aim)
    requires Delivers(s.tasks[t].pc, inp, a, aim) && inp.child in s.tasks && s.tasks[inp.child].pc.Ended?
    ensures GoodAt(s, a, aim)
  {
    assert Requests.KidsOk(s.tasks, s.tasks[t]);
    assert ServeInv(s, inp.child, before, aim);
  }

  lemma MovedKeeps(s: State, t: Tid, m: Move, child: Option<Tid>, aim: Aim)
    requires t in s.tasks && s.tasks[t].node in s.nodes && m.Move? && (m.spawn.Some? ==> child.Some?)
    requires m.node.caching == s.nodes[s.tasks[t].node].caching
    requires Good(s.nodes[s.tasks[t].node], s.tasks[t].node, aim) ==> Good(m.node, s.tasks[t].node, aim)
    requires Half(s.nodes[s.tasks[t].node], s.tasks[t].node, aim) ==> Half(m.node, s.tasks[t].node, aim)
    ensures Keeps(s, Moved(s, t, m, child), aim)
  {
  }

  // The requests of every task but the mover stay as they are; a new one has not begun.
  lemma MovedServeInv(s: State, u: Tid, m: Move, child: Option<Tid>, before: set<Tid>, aim: Aim)
    requires u in s.tasks && Flights.SpawnOk(s, m, child)
    requires forall w {:trigger ServeInv(s, w, before, aim)} :: w in s.tasks ==> ServeInv(s, w, before, aim)
    requires Keeps(s, Moved(s, u, m, child), aim) && ServeInv(Moved(s, u, m, child), u, before, aim)
    ensures forall w {:trigger ServeInv(Moved(s, u, m, child), w, before, aim)} ::
      w in Moved(s, u, m, child).tasks ==> ServeInv(Moved(s, u, m, child), w, before, aim)
  {
    var s' := Moved(s, u, m, child);
    forall w | w in s'.tasks
      ensures ServeInv(s', w, before, aim)
    {
      if w != u && w in s.tasks {
        assert ServeInv(s, w, before, aim);
        OthersKept(s, s', w, before, aim);
      }
    }
  }

  // ---------- one step ----------

  lemma OriginSteps(s: State, t: Tid, inp: Input, before: set<Tid>, aim: Aim, targets: set<Addr>)
    requires Flights.Inv(s) && Requests.Inv(s) && Inv(s, t, before, aim, targets)
    requires Enabled(s, Run(t, inp)) && (s.tasks[t].op.Set? ==> Lossless(inp))
    ensures Inv(Apply(s, Run(t, inp)), t, before, aim, targets)
  {
    var m := Next(s.nodes[s.tasks[t].node], t, s.tasks[t], inp);
    assert Flights.TaskOk(s, t);
    Flights.SpawnsFresh(s, t, inp);
    NextIsActMove(s.nodes[s.tasks[t].node], t, s.tasks[t], inp, m, aim);
    Requests.NextIsKidsMove(s.nodes[s.tasks[t].node], t, s.tasks[t], inp, m);
    forall a
      ensures OriginMove(s.tasks[t], inp, m, a, aim)
    {
      NextIsOriginMove(s.nodes[s.tasks[t].node], t, s.tasks[t], inp, m, a, aim);
    }
    OriginMovedAll(s, t, inp, m, before, aim, targets);
  }

  lemma OriginMovedAll(s: State, t: Tid, inp: Input, m: Move, before: set<Tid>, aim: Aim, targets: set<Addr>)
    requires Requests.Inv(s) && Inv(s, t, before, aim, targets) && Flights.SpawnOk(s, m, ChildOf(inp))
    requires inp.Answer? ==> inp.child in s.tasks && s.tasks[inp.child].pc.Ended?
    requires ActMove(s.nodes[s.tasks[t].node], s.tasks[t], m, aim) && Requests.KidsMove(s.tasks[t], m, ChildOf(inp))
    requires forall a :: OriginMove(s.tasks[t], inp, m, a, aim)
    ensures Inv(Moved(s, t, m, ChildOf(inp)), t, before, aim, targets)
  {
    MovedKeeps(s, t, m, ChildOf(inp), aim);
    MovedServeInv(s, t, m, ChildOf(inp), before, aim);
    OriginMoved(s, t, inp, m, before, aim, targets);
  }

  lemma OriginMoved(s: State, t: Tid, inp: Input, m: Move, before: set<Tid>, aim: Aim, targets: set<Addr>)
    requires Requests.Inv(s) && Inv(s, t, before, aim, targets) && Flights.SpawnOk(s, m, ChildOf(inp))
    requires inp.Answer? ==> inp.child in s.tasks && s.tasks[inp.child].pc.Ended?
    requires ActMove(s.nodes[s.tasks[t].node], s.tasks[t], m, aim) && Keeps(s, Moved(s, t, m, ChildOf(inp)), aim)
    requires Requests.KidsMove(s.tasks[t], m, ChildOf(inp))
    requires forall a :: OriginMove(s.tasks[t], inp, m, a, aim)
    ensures OriginInv(Moved(s, t, m, ChildOf(inp)), t, before, aim, targets)
  {
    var s', pc, pc' := Moved(s, t, m, ChildOf(inp)), s.tasks[t].pc, m.task.pc;
    forall a | a in targets
      ensures GoodAt(s', a, aim) || Owed(pc', a, aim) || Broken(m.task)
    {
      assert OriginMove(s.tasks[t], inp, m, a, aim);
      if Delivers(pc, inp, a, aim) {
        DeliveredIsGood(s, t, inp, a, before, aim);
      }
    }
    if OwnerOf(pc').Some? {
      var a := OwnerOf(pc').value.address;
      assert OriginMove(s.tasks[t], inp, m, a, aim);
      if Delivers(pc, inp, a, aim) {
        DeliveredIsGood(s, t, inp, a, before, aim);
      }
    }
    assert OriginMove(s.tasks[t], inp, m, "", aim);
  }

  lemma ServerSteps(s: State, t: Tid, u: Tid, inp: Input, before: set<Tid>, aim: Aim, targets: set<Addr>)
    requires Flights.Inv(s) && Inv(s, t, before, aim, targets) && Enabled(s, Run(u, inp)) && u != t
    requires u !in before && Serves(s.tasks[u].op, s.tasks[u].node, aim)
    ensures Inv(Apply(s, Run(u, inp)), t, before, aim, targets)
  {
    var m := Next(s.nodes[s.tasks[u].node], u, s.tasks[u], inp);
    assert Flights.TaskOk(s, u) && ServeInv(s, u, before, aim);
    Flights.SpawnsFresh(s, u, inp);
    NextIsActMove(s.nodes[s.tasks[u].node], u, s.tasks[u], inp, m, aim);
    ServerMoved(s, t, u, m, ChildOf(inp), before, aim, targets);
  }

  lemma ServerMoved(s: State, t: Tid, u: Tid, m: Move, child: Option<Tid>, before: set<Tid>, aim: Aim,
                    targets: set<Addr>)
    requires Inv(s, t, before, aim, targets) && u in s.tasks && s.tasks[u].node in s.nodes && u != t
    requires Flights.SpawnOk(s, m, child) && ActMove(s.nodes[s.tasks[u].node], s.tasks[u], m, aim)
    requires ServeInv(s, u, before, aim)
    ensures Inv(Moved(s, u, m, child), t, before, aim, targets)
  {
    MovedKeeps(s, u, m, child, aim);
    MovedServeInv(s, u, m, child, before, aim);
    OriginKept(s, Moved(s, u, m, child), t, before, aim, targets);
  }

  lemma HarmlessKeeps(nd: Node, nd': Node, a: Addr, aim: Aim)
    requires Harmless(nd, nd', aim) && nd'.caching == nd.caching
    ensures Good(nd, a, aim) ==> Good(nd', a, aim)
    ensures Half(nd, a, aim) ==> Half(nd', a, aim)
  {
  }

  lemma CarefulSteps(s: State, t: Tid, u: Tid, inp: Input, before: set<Tid>, aim: Aim, targets: set<Addr>)
    requires Inv(s, t, before, aim, targets) && Enabled(s, Run(u, inp)) && u != t && Careful(s, u, inp, aim)
    ensures Inv(Apply(s, Run(u, inp)), t, before, aim, targets)
  {
    var m := Next(s.nodes[s.tasks[u].node], u, s.tasks[u], inp);
    Flights.SpawnsFresh(s, u, inp);
    Quiet.NextSpares(s.nodes[s.tasks[u].node], u, s.tasks[u], inp, m, aim.key);
    CarefulMoved(s, t, u, m, ChildOf(inp), before, aim, targets);
  }

  lemma CarefulMoved(s: State, t: Tid, u: Tid, m: Move, child: Option<Tid>, before: set<Tid>, aim: Aim,
                     targets: set<Addr>)
    requires Inv(s, t, before, aim, targets) && u in s.tasks && s.tasks[u].node in s.nodes && u != t
    requires Flights.SpawnOk(s, m, child) && m.task.op == s.tasks[u].op && m.task.node == s.tasks[u].node
    requires m.node.ring == s.nodes[s.tasks[u].node].ring && m.node.caching == s.nodes[s.tasks[u].node].caching
    requires Harmless(s.nodes[s.tasks[u].node], m.node, aim) && Quiet.Spares(s.tasks[u].op, aim.key)
    ensures Inv(Moved(s, u, m, child), t, before, aim, targets)
  {
    HarmlessKeeps(s.nodes[s.tasks[u].node], m.node, s.tasks[u].node, aim);
    MovedKeeps(s, u, m, child, aim);
    MovedServeInv(s, u, m, child, before, aim);
    OriginKept(s, Moved(s, u, m, child), t, before, aim, targets);
  }

  lemma QuietKeepsInv(s: State, step: Step, t: Tid, before: set<Tid>, aim: Aim, targets: set<Addr>)
    requires Inv(s, t, before, aim, targets) && Enabled(s, step) && !step.Run? && Calm(s, step, t, aim, before)
    ensures Inv(Apply(s, step), t, before, aim, targets)
  {
    var s' := Apply(s, step);
    QuietKeeps(s, step, t, before, aim);
    forall u | u in s'.tasks
      ensures ServeInv(s', u, before, aim)
    {
      if u in s.tasks {
        assert ServeInv(s, u, before, aim);
        OthersKept(s, s', u, before, aim);
      }
    }
    OriginKept(s, s', t, before, aim, targets);
  }

  lemma QuietKeeps(s: State, step: Step, t: Tid, before: set<Tid>, aim: Aim)
    requires Enabled(s, step) && !step.Run? && Calm(s, step, t, aim, before)
    ensures Keeps(s, Apply(s, step), aim)
  {
  }

  lemma StepKeepsInv(s: State, step: Step, t: Tid, before: set<Tid>, aim: Aim, targets: set<Addr>)
    requires Flights.Inv(s) && Requests.Inv(s) && Inv(s, t, before, aim, targets)
    requires Enabled(s, step) && Calm(s, step, t, aim, before)
    ensures Inv(Apply(s, step), t, before, aim, targets)
  {
    if !step.Run? {
      QuietKeepsInv(s, step, t, before, aim, targets);
    } else if step.t == t {
      OriginSteps(s, t, step.input, before, aim, targets);
    } else if step.t !in before && Serves(s.tasks[step.t].op, s.tasks[step.t].node, aim) {
      ServerSteps(s, t, step.t, step.input, before, aim, targets);
    } else {
      CarefulSteps(s, t, step.t, step.input, before, aim, targets);
    }
  }

  // ---------- runs ----------

  // In this run step b calls the operation t, and until state j nothing disturbs it.
  ghost predicate Undisturbed(ss: seq<State>, steps: seq<Step>, b: nat, j: nat, t: Tid, aim: Aim) {
    && IsRun(ss, steps) && Init(ss[0]) && b < j < |ss|
    && steps[b].Call? && steps[b].t == t && Starts(steps[b].op, steps[b].node, aim)
    && KnowsItself(ss[b].nodes[aim.origin].ring, aim.origin)
    && forall i :: b < i < j ==> Calm(ss[i], steps[i], t, aim, ss[b].tasks.Keys)
  }

  lemma {:induction false} GroundInv(ss: seq<State>, steps: seq<Step>, i: nat)
    requires IsRun(ss, steps) && Init(ss[0]) && i < |ss|
    ensures Flights.Inv(ss[i]) && Requests.Inv(ss[i])
  {
    if i == 0 {
      Flights.InitInv(ss[0]);
    } else {
      GroundInv(ss, steps, i - 1);
      Flights.StepKeepsInv(ss[i - 1], steps[i - 1]);
      Requests.StepKeepsInv(ss[i - 1], steps[i - 1]);
    }
  }

  lemma {:induction false} Onwards(ss: seq<State>, steps: seq<Step>, b: nat, i: nat, j: nat, t: Tid, aim: Aim,
                                   targets: set<Addr>)
    requires Undisturbed(ss, steps, b, j, t, aim) && b < i <= j && Inv(ss[i], t, ss[b].tasks.Keys, aim, targets)
    ensures Inv(ss[j], t, ss[b].tasks.Keys, aim, targets)
    decreases j - i
  {
    if i < j {
      GroundInv(ss, steps, i);
      StepKeepsInv(ss[i], steps[i], t, ss[b].tasks.Keys, aim, targets);
      Onwards(ss, steps, b, i + 1, j, t, aim, targets);
    }
  }

  lemma JustCalled(s: State, step: Step, t: Tid, aim: Aim)
    requires Enabled(s, step) && step.Call? && step.t == t && Starts(step.op, step.node, aim)
    requires KnowsItself(s.nodes[aim.origin].ring, aim.origin)
    ensures Inv(Apply(s, step), t, s.tasks.Keys, aim, {})
  {
  }

  lemma Called(ss: seq<State>, steps: seq<Step>, b: nat, i: nat, j: nat, t: Tid, aim: Aim)
    requires Undisturbed(ss, steps, b, j, t, aim) && b < i <= j
    ensures Inv(ss[i], t, ss[b].tasks.Keys, aim, {})
  {
    JustCalled(ss[b], steps[b], t, aim);
    Onwards(ss, steps, b, b + 1, i, t, aim, {});
  }

  // ---------- Set and Remove ----------

  // Once an owner has been picked it is never forgotten before the peers are listed.
  predicate OwnerKnown(pc: Pc) {
    && !pc.Begin? && !pc.Enter? && !pc.PickOwner?
    && ((InLock(pc) && pc.next.ListFor?) || pc.ListPeers? ==> OwnerOf(pc).Some?)
  }

  lemma OwnerStaysKnown(nd: Node, t: Tid, task: Task, inp: Input, m: Move)
    requires m == Next(nd, t, task, inp) && m.Move? && (task.op.Set? || task.op.Remove?)
    requires Flights.LockFits(task.op, task.pc)
    requires OwnerKnown(task.pc) || (task.pc.PickOwner? && nd.ring.points != [])
    ensures OwnerKnown(m.task.pc)
  {
  }

  lemma {:induction false} OwnerKnownUntil(ss: seq<State>, steps: seq<Step>, i: nat, j: nat, t: Tid)
    requires IsRun(ss, steps) && Init(ss[0]) && i <= j < |ss|
    requires t in ss[i].tasks && OwnerKnown(ss[i].tasks[t].pc) && (ss[i].tasks[t].op.Set? || ss[i].tasks[t].op.Remove?)
    ensures t in ss[j].tasks && OwnerKnown(ss[j].tasks[t].pc) && ss[j].tasks[t].op == ss[i].tasks[t].op
    decreases j - i
  {
    if i < j {
      GroundInv(ss, steps, i);
      assert Flights.TaskOk(ss[i], t);
      assert ss[i + 1] == Apply(ss[i], steps[i]);
      if steps[i].Run? && steps[i].t == t {
        var m := Next(ss[i].nodes[ss[i].tasks[t].node], t, ss[i].tasks[t], steps[i].input);
        OwnerStaysKnown(ss[i].nodes[ss[i].tasks[t].node], t, ss[i].tasks[t], steps[i].input, m);
        Flights.RunIsFlightMove(ss[i], t, steps[i].input, m);
      }
      OwnerKnownUntil(ss, steps, i + 1, j, t);
    }
  }

  // Listing the peers: each of them is owed a request unless it has the owner's address.
  lemma Listed(nd: Node, task: Task, m: Move, c: Client, aim: Aim)
    requires task.pc.ListPeers? && task.pc.owner.Some? && Starts(task.op, task.node, aim)
    requires (task.op.Set? || task.op.Remove?)
    requires m == NextWrite(nd, task, Go) && KnowsItself(nd.ring, aim.origin) && c in Others(nd)
    ensures m.Move? && m.task.pc.FanOut? && c.address != aim.origin
    ensures Owed(m.task.pc, c.address, aim) || c.address == task.pc.owner.value.address
  {
    if c.address != task.pc.owner.value.address {
      assert Parcel(c, Message(task.op)) in m.task.pc.fan.todo;
    }
  }

  lemma ListingStep(s: State, t: Tid, before: set<Tid>, aim: Aim)
    requires Flights.Inv(s) && Inv(s, t, before, aim, {}) && Enabled(s, Run(t, Go))
    requires s.tasks[t].pc.ListPeers? && s.tasks[t].pc.owner.Some? && (s.tasks[t].op.Set? || s.tasks[t].op.Remove?)
    requires Inv(Apply(s, Run(t, Go)), t, before, aim, {})
    ensures Inv(Apply(s, Run(t, Go)), t, before, aim, Places(Others(s.nodes[aim.origin])))
  {
    var nd, task := s.nodes[aim.origin], s.tasks[t];
    var m := NextWrite(nd, task, Go);
    assert m == Next(nd, t, task, Go) && m.node == nd && m.spawn.None?;
    forall c | c in Others(nd)
      ensures GoodAt(Apply(s, Run(t, Go)), c.address, aim) || Owed(m.task.pc, c.address, aim)
    {
      Listed(nd, task, m, c, aim);
    }
  }

  // What the invariant says in the end.
  lemma Fulfilled(s: State, t: Tid, before: set<Tid>, aim: Aim, targets: set<Addr>)
    requires Inv(s, t, before, aim, targets) && Settled(s.tasks[t])
    ensures GoodAt(s, aim.origin, aim)
    ensures forall a :: a in targets ==> GoodAt(s, a, aim)
  {
  }

  lemma {:induction false} FulfilledAt(ss: seq<State>, steps: seq<Step>, b: nat, i: nat, j: nat, t: Tid, aim: Aim,
                                       targets: set<Addr>)
    requires Undisturbed(ss, steps, b, j, t, aim) && b < i <= j && Inv(ss[i], t, ss[b].tasks.Keys, aim, targets)
    requires t in ss[j].tasks && Settled(ss[j].tasks[t])
    ensures GoodAt(ss[j], aim.origin, aim)
    ensures forall a :: a in targets ==> GoodAt(ss[j], a, aim)
  {
    Onwards(ss, steps, b, i, j, t, aim, targets);
    Fulfilled(ss[j], t, ss[b].tasks.Keys, aim, targets);
  }

  // The addresses of these clients.
  function Places(cs: set<Client>): (r: set<Addr>)
    ensures forall c :: c in cs ==> c.address in r
  {
    set c | c in cs :: c.address
  }

  ghost predicate Picks(s: State, step: Step, t: Tid, aim: Aim) {
    && aim.origin in s.nodes && s.nodes[aim.origin].ring.points != []
    && t in s.tasks && (s.tasks[t].op.Set? || s.tasks[t].op.Remove?) && s.tasks[t].node == aim.origin
    && s.tasks[t].pc.PickOwner? && step == Run(t, Go)
  }

  ghost predicate Lists(s: State, step: Step, t: Tid, aim: Aim) {
    && aim.origin in s.nodes
    && t in s.tasks && (s.tasks[t].op.Set? || s.tasks[t].op.Remove?)
    && s.tasks[t].pc.ListPeers? && step == Run(t, Go)
  }

  lemma OwnerKnownAtListing(ss: seq<State>, steps: seq<Step>, p: nat, q: nat, t: Tid, aim: Aim)
    requires IsRun(ss, steps) && Init(ss[0]) && p < q < |steps| && Picks(ss[p], steps[p], t, aim)
    ensures t in ss[q].tasks && OwnerKnown(ss[q].tasks[t].pc)
  {
    GroundInv(ss, steps, p);
    assert Flights.TaskOk(ss[p], t);
    OwnerStaysKnown(ss[p].nodes[aim.origin], t, ss[p].tasks[t], Go,
                    Next(ss[p].nodes[aim.origin], t, ss[p].tasks[t], Go));
    assert ss[p + 1] == Apply(ss[p], steps[p]);
    OwnerKnownUntil(ss, steps, p + 1, q, t);
  }

  lemma ListingTargets(ss: seq<State>, steps: seq<Step>, b: nat, q: nat, j: nat, t: Tid, aim: Aim)
    requires Undisturbed(ss, steps, b, j, t, aim) && b < q < j && Lists(ss[q], steps[q], t, aim)
    requires OwnerKnown(ss[q].tasks[t].pc)
    ensures Inv(ss[q + 1], t, ss[b].tasks.Keys, aim, Places(Others(ss[q].nodes[aim.origin])))
  {
    Called(ss, steps, b, q, j, t, aim);
    Called(ss, steps, b, q + 1, j, t, aim);
    GroundInv(ss, steps, q);
    ListingStep(ss[q], t, ss[b].tasks.Keys, aim);
  }

  // The main result for Set and Remove. The ring that is not empty when the owner is picked (step p)
  // may be replaced before the peers are listed (step q); the peers reached are those of the listing.
  lemma ReachesEveryPeer(ss: seq<State>, steps: seq<Step>, b: nat, p: nat, q: nat, j: nat, t: Tid, aim: Aim)
    requires Undisturbed(ss, steps, b, j, t, aim) && b < p < q < j
    requires Picks(ss[p], steps[p], t, aim) && Lists(ss[q], steps[q], t, aim)
    requires t in ss[j].tasks && Settled(ss[j].tasks[t])
    ensures GoodAt(ss[j], aim.origin, aim)
    ensures forall c :: c in Others(ss[q].nodes[aim.origin]) ==> GoodAt(ss[j], c.address, aim)
  {
    OwnerKnownAtListing(ss, steps, p, q, t, aim);
    ListingTargets(ss, steps, b, q, j, t, aim);
    FulfilledAt(ss, steps, b, q + 1, j, t, aim, Places(Others(ss[q].nodes[aim.origin])));
  }

  // ---------- RemoveKeys ----------

  // Listing the peers: each of them that is not among the owners is owed a request for all keys.
  lemma BatchListing(s: State, t: Tid, before: set<Tid>, aim: Aim, targets: set<Addr>)
    requires Inv(s, t, before, aim, targets) && Enabled(s, Run(t, Go))
    requires s.tasks[t].op.RemoveKeys? && s.tasks[t].pc.FanOut? && !s.tasks[t].pc.fan.listed
    requires Inv(Apply(s, Run(t, Go)), t, before, aim, targets)
    ensures Inv(Apply(s, Run(t, Go)), t, before, aim,
                targets + Places(Others(s.nodes[aim.origin]) - s.tasks[t].pc.fan.owners))
  {
    var nd, task := s.nodes[aim.origin], s.tasks[t];
    var m := NextRemoveKeys(nd, task);
    assert m == Next(nd, t, task, Go) && m.spawn.None?;
    forall c | c in Others(nd) && c !in task.pc.fan.owners
      ensures Owed(m.task.pc, c.address, aim)
    {
      assert Parcel(c, ServeRemove(task.op.keys)) in m.task.pc.fan.todo;
    }
  }

  // Sorting the key puts it into the batch of the owner that the ring names at that moment.
  lemma SortedToOwner(s: State, t: Tid, before: set<Tid>, aim: Aim, targets: set<Addr>)
    requires Inv(s, t, before, aim, targets) && Enabled(s, Run(t, Go))
    requires s.tasks[t].op.RemoveKeys? && s.tasks[t].pc.Sort?
    requires s.tasks[t].pc.i < |s.tasks[t].op.keys| && s.tasks[t].op.keys[s.tasks[t].pc.i] == aim.key
    requires var o := Ring.Pick(s.nodes[aim.origin].ring, aim.key); o.Some? && !o.value.isSelf
    requires Inv(Apply(s, Run(t, Go)), t, before, aim, targets)
    ensures Inv(Apply(s, Run(t, Go)), t, before, aim,
                targets + {Ring.Pick(s.nodes[aim.origin].ring, aim.key).value.address})
  {
    var nd, task := s.nodes[aim.origin], s.tasks[t];
    var m, c := NextRemoveKeys(nd, task), Client(nd.gen, Ring.Pick(nd.ring, aim.key).value.address);
    assert m == Next(nd, t, task, Go) && m.spawn.None?;
    assert c in m.task.pc.batch && m.task.pc.batch[c][|m.task.pc.batch[c]| - 1] == aim.key;
  }

  ghost predicate ListsBatch(s: State, step: Step, t: Tid, aim: Aim) {
    && aim.origin in s.nodes
    && t in s.tasks && s.tasks[t].op.RemoveKeys? && s.tasks[t].pc.FanOut?
    && !s.tasks[t].pc.fan.listed && step == Run(t, Go)
  }

  // The step looks up the owner of the key.
  ghost predicate SortsKey(s: State, step: Step, t: Tid, aim: Aim) {
    && aim.origin in s.nodes
    && t in s.tasks && s.tasks[t].op.RemoveKeys? && s.tasks[t].pc.Sort? && step == Run(t, Go)
    && s.tasks[t].pc.i < |s.tasks[t].op.keys| && s.tasks[t].op.keys[s.tasks[t].pc.i] == aim.key
  }

  // The peer to which the ring sends the key, if that is not the node itself.
  function RemoteOwner(nd: Node, k: Key): (o: Option<Client>) {
    var p := Ring.Pick(nd.ring, k);
    if p.Some? && !p.value.isSelf then Some(Client(nd.gen, p.value.address)) else None
  }

  // RemoveKeys clears every key of the batch from the caller and from each listed peer that owns none.
  lemma BatchReachesNonOwners(ss: seq<State>, steps: seq<Step>, b: nat, q: nat, j: nat, t: Tid, aim: Aim)
    requires Undisturbed(ss, steps, b, j, t, aim) && b < q < j && ListsBatch(ss[q], steps[q], t, aim)
    requires t in ss[j].tasks && Settled(ss[j].tasks[t])
    ensures GoodAt(ss[j], aim.origin, aim)
    ensures forall c :: c in Others(ss[q].nodes[aim.origin]) && c !in ss[q].tasks[t].pc.fan.owners ==>
              GoodAt(ss[j], c.address, aim)
  {
    Called(ss, steps, b, q, j, t, aim);
    Called(ss, steps, b, q + 1, j, t, aim);
    BatchListing(ss[q], t, ss[b].tasks.Keys, aim, {});
    FulfilledAt(ss, steps, b, q + 1, j, t, aim,
            {} + Places(Others(ss[q].nodes[aim.origin]) - ss[q].tasks[t].pc.fan.owners));
  }

  // RemoveKeys clears each key from the peer that owns it.
  lemma BatchReachesOwner(ss: seq<State>, steps: seq<Step>, b: nat, q: nat, j: nat, t: Tid, aim: Aim)
    requires Undisturbed(ss, steps, b, j, t, aim) && b < q < j && SortsKey(ss[q], steps[q], t, aim)
    requires RemoteOwner(ss[q].nodes[aim.origin], aim.key).Some?
    requires t in ss[j].tasks && Settled(ss[j].tasks[t])
    ensures GoodAt(ss[j], RemoteOwner(ss[q].nodes[aim.origin], aim.key).value.address, aim)
  {
    Called(ss, steps, b, q, j, t, aim);
    Called(ss, steps, b, q + 1, j, t, aim);
    SortedToOwner(ss[q], t, ss[b].tasks.Keys, aim, {});
    FulfilledAt(ss, steps, b, q + 1, j, t, aim, {} + {RemoteOwner(ss[q].nodes[aim.origin], aim.key).value.address});
  }
}
