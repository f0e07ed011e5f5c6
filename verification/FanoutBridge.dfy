// The fan-out of the cluster model returns what the channel, wait group and collecting loop return.
module FanoutBridge {
  import opened Views
  import opened Wire
  import Fanout
  import Outcomes
  import Protocol

  // The result of a peer call: nil or its error.
  function ReplyOf(r: Result): (reply: Fanout.Reply) {
    if r.Fail? then Some(r.error) else None
  }

  // One sender per request of the fan-out of task t, with the result that the task took.
  ghost predicate SameReplies(told: seq<Result>, s: Fanout.State) {
    && s.total == |told|
    && forall k: nat :: k < |told| && k in s.replies ==> s.replies[k] == ReplyOf(told[k])
  }

  // A Remove that joined nobody and was not refused by the owner, or a RemoveKeys, returned nil if and
  // only if a caller that collects the same results from as many goroutines, in any order, does.
  lemma SameVerdict(ss: seq<Protocol.State>, steps: seq<Protocol.Step>, i: nat, t: Protocol.Tid,
                    fs: seq<Fanout.State>, fsteps: seq<Fanout.Step>, j: nat)
    requires Protocol.IsRun(ss, steps) && Protocol.Init(ss[0]) && i < |ss| && Outcomes.EndedAlone(ss[i], t)
    requires ss[i].tasks[t].op.RemoveKeys?
      || (ss[i].tasks[t].op.Remove? && !Outcomes.Troubled(ss, steps, i, t, false))
    requires Fanout.IsRun(fs, fsteps) && j < |fs| && fs[j].caller.Returned?
    requires SameReplies(Outcomes.PastOf(ss, steps, i, t).told, fs[j])
    ensures ss[i].tasks[t].pc.outcome == Return(if fs[j].caller.errors == [] then Done else Fail(Many))
  {
    var told := Outcomes.PastOf(ss, steps, i, t).told;
    Outcomes.TroubleExactly(ss, steps, i, t);
    if ss[i].tasks[t].op.RemoveKeys? {
      Outcomes.RemoveKeysEnds(ss, steps, i, t);
    } else {
      Outcomes.RemoveEnds(ss, steps, i, t);
    }
    NilExactly(told, fs, fsteps, j);
  }

  lemma NilExactly(told: seq<Result>, fs: seq<Fanout.State>, fsteps: seq<Fanout.Step>, j: nat)
    requires Fanout.IsRun(fs, fsteps) && j < |fs| && fs[j].caller.Returned? && SameReplies(told, fs[j])
    ensures fs[j].caller.errors == [] <==> !Outcomes.AnyFailed(told)
  {
    Fanout.CollectsEverything(fs, fsteps, j);
    Fanout.Invariant(fs, fsteps, j);
    if fs[j].caller.errors != [] {
      var k: nat :| k < fs[0].total && !(k in fs[j].replies && fs[j].replies[k].None?);
      assert fs[j].replies[k] == ReplyOf(told[k]);
      assert told[k].Fail?;
    }
    forall k: nat | k < |told| && fs[j].caller.errors == []
      ensures !told[k].Fail?
    {
      assert fs[j].replies[k] == ReplyOf(told[k]);
    }
  }
}
