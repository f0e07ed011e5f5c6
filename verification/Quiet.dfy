// Operations that leave a key alone: they never write or remove its copies.
module Quiet {
  import opened Views
  import opened Protocol

  // The operation is not a Set, Remove or RemoveKeys of k (nor the request a peer sends for one).
  predicate Spares(op: Op, k: Key) {
    match op
    case Get(_, _) => true
    case Set(key, _) => key != k
    case Remove(key) => key != k
    case ServeSet(key, _) => key != k
    case RemoveKeys(keys) => k !in keys
    case ServeRemove(keys) => k !in keys
  }

  ghost predicate SparesBatch(batch: map<Client, seq<Key>>, k: Key) {
    forall c :: c in batch ==> k !in batch[c]
  }

  ghost predicate SparesThen(th: Then, k: Key) {
    th.EraseMore? ==> k !in th.rest && (th.batch.Some? ==> SparesBatch(th.batch.value, k))
  }

  ghost predicate SparesFan(f: Fan, k: Key) {
    && (forall p :: p in f.todo ==> !p.msg.Get? && Spares(p.msg, k))
    && (forall c :: c in f.out ==> !f.out[c].msg.Get? && Spares(f.out[c].msg, k))
  }

  ghost predicate SparesPc(pc: Pc, k: Key) {
    match pc
    case Acquire(j, th) => j.key != k && SparesThen(th, k)
    case First(j, th) => j.key != k && SparesThen(th, k)
    case Second(j, th) => j.key != k && SparesThen(th, k)
    case Release(j, th) => j.key != k && SparesThen(th, k)
    case Sort(_, batch) => SparesBatch(batch, k)
    case FanOut(f) => SparesFan(f, k)
    case _ => true
  }

  ghost predicate SparesTask(task: Task, k: Key) {
    Spares(task.op, k) && SparesPc(task.pc, k)
  }

  // The two nodes hold the same copies of k.
  ghost predicate SameAt(nd: Node, nd': Node, k: Key) {
    && (k in nd'.main <==> k in nd.main) && (k in nd.main ==> nd'.main[k] == nd.main[k])
    && (k in nd'.hot <==> k in nd.hot) && (k in nd.hot ==> nd'.hot[k] == nd.hot[k])
  }

  predicate IsGet(op: Op, k: Key) {
    op.Get? && op.key == k
  }

  // A task that spares k keeps sparing it, sends only requests that spare it, and unless it is a
  // Get of k itself leaves the copies of k where they are.
  ghost predicate SparingMove(nd: Node, task: Task, m: Move, k: Key)
    requires m.Move?
  {
    && m.task.op == task.op && m.task.node == task.node
    && SparesPc(m.task.pc, k)
    && (m.spawn.Some? ==> Spares(m.spawn.value.op, k) && (IsGet(m.spawn.value.op, k) ==> IsGet(task.op, k)))
    && (m.load.Some? ==> task.op.Get? && task.pc.RunGetter?)
    && m.node.caching == nd.caching && m.node.ring == nd.ring && m.node.gen == nd.gen
    && (!IsGet(task.op, k) ==> SameAt(nd, m.node, k))
  }

  lemma NextSpares(nd: Node, t: Tid, task: Task, inp: Input, m: Move, k: Key)
    requires m == Next(nd, t, task, inp) && m.Move? && SparesTask(task, k)
    ensures SparingMove(nd, task, m, k)
  {
    if InDo(task.pc) {
      DoSpares(nd, t, task, m, k);
    } else if InLock(task.pc) {
      LockSpares(nd, t, task, m, k);
    } else if task.pc.FanOut? {
      FanSpares(nd, task, inp, m, k);
    } else if task.op.Get? {
      GetSpares(nd, task, inp, m, k);
    } else if task.op.Set? || task.op.Remove? {
      WriteSpares(nd, task, inp, m, k);
    } else {
      RestSpares(nd, t, task, inp, m, k);
    }
  }

  lemma DoSpares(nd: Node, t: Tid, task: Task, m: Move, k: Key)
    requires HasKey(task.op) && InDo(task.pc) && m == NextFlight(nd, t, task) && m.Move? && SparesTask(task, k)
    ensures SparingMove(nd, task, m, k)
  {
  }

  // RemoveKeys and the requests that peers serve, outside Do and Lock.
  lemma RestSpares(nd: Node, t: Tid, task: Task, inp: Input, m: Move, k: Key)
    requires m == Next(nd, t, task, inp) && m.Move? && SparesTask(task, k)
    requires !InDo(task.pc) && !InLock(task.pc) && !task.pc.FanOut?
    requires !task.op.Get? && !task.op.Set? && !task.op.Remove?
    ensures SparingMove(nd, task, m, k)
  {
    assert m.node == nd;
  }

  lemma LockSpares(nd: Node, t: Tid, task: Task, m: Move, k: Key)
    requires InLock(task.pc) && m == Critical(nd, t, task) && m.Move? && SparesTask(task, k)
    ensures SparingMove(nd, task, m, k)
  {
  }

  lemma FanSpares(nd: Node, task: Task, inp: Input, m: Move, k: Key)
    requires task.pc.FanOut? && m == NextFan(nd, task, inp) && m.Move? && SparesTask(task, k)
    ensures SparingMove(nd, task, m, k)
  {
    assert m.node == nd;
  }

  lemma WriteSpares(nd: Node, task: Task, inp: Input, m: Move, k: Key)
    requires (task.op.Set? || task.op.Remove?) && Fits(task.pc, inp) && m == NextWrite(nd, task, inp) && m.Move?
    requires SparesTask(task, k)
    ensures SparingMove(nd, task, m, k)
  {
    assert m.node == nd && Spares(Message(task.op), k);
  }

  lemma GetSpares(nd: Node, task: Task, inp: Input, m: Move, k: Key)
    requires task.op.Get? && Fits(task.pc, inp) && m == NextGet(nd, task, inp) && m.Move?
    ensures SparingMove(nd, task, m, k)
  {
    if task.pc.LookMain? || task.pc.LookHot? {
      LookSpares(nd, task, task.pc.LookMain?, task.pc.again, inp.now, m, k);
    } else {
      LoadSpares(nd, task, inp, m, k);
    }
  }

  lemma LookSpares(nd: Node, task: Task, inMain: bool, again: bool, now: Time, m: Move, k: Key)
    requires task.op.Get? && m == Look(nd, task, inMain, again, now)
    ensures SparingMove(nd, task, m, k)
  {
  }

  lemma LoadSpares(nd: Node, task: Task, inp: Input, m: Move, k: Key)
    requires task.op.Get? && Fits(task.pc, inp) && m == NextGet(nd, task, inp) && m.Move?
    requires !task.pc.LookMain? && !task.pc.LookHot?
    ensures SparingMove(nd, task, m, k)
  {
    if task.pc.PopHot? || task.pc.PopMain? {
      PopSpares(nd, task, inp, m, k);
    } else if task.pc.CallPeer? || task.pc.AwaitPeer? || task.pc.PeerFailed? || task.pc.CountPeer? {
      PeerSpares(nd, task, inp, m, k);
    } else {
      LocalSpares(nd, task, inp, m, k);
    }
  }

  lemma PopSpares(nd: Node, task: Task, inp: Input, m: Move, k: Key)
    requires task.op.Get? && Fits(task.pc, inp) && m == NextGet(nd, task, inp) && m.Move?
    requires task.pc.PopHot? || task.pc.PopMain?
    ensures SparingMove(nd, task, m, k)
  {
  }

  lemma PeerSpares(nd: Node, task: Task, inp: Input, m: Move, k: Key)
    requires task.op.Get? && Fits(task.pc, inp) && m == NextGet(nd, task, inp) && m.Move?
    requires task.pc.CallPeer? || task.pc.AwaitPeer? || task.pc.PeerFailed? || task.pc.CountPeer?
    ensures SparingMove(nd, task, m, k)
  {
    assert m.node.main == nd.main && m.node.hot == nd.hot;
  }

  lemma LocalSpares(nd: Node, task: Task, inp: Input, m: Move, k: Key)
    requires task.op.Get? && Fits(task.pc, inp) && m == NextGet(nd, task, inp) && m.Move?
    requires !task.pc.LookMain? && !task.pc.LookHot? && !task.pc.PopHot? && !task.pc.PopMain?
    requires !task.pc.CallPeer? && !task.pc.AwaitPeer? && !task.pc.PeerFailed? && !task.pc.CountPeer?
    ensures SparingMove(nd, task, m, k)
  {
    assert m.node.main == nd.main && m.node.hot == nd.hot;
  }
}
