// The fan-out of Remove and RemoveKeys: one goroutine per peer sends its result over an unbuffered
// channel, one closes the channel when the wait group is empty, and the caller collects the errors.
module Fanout {
  import opened Views
  import Wire

  // What a peer call returned: nil or an error.
  type Reply = Option<Wire.Error>

  datatype Sender = Calling | Sending(reply: Reply) | Sent | Finished
  datatype Closer = NotStarted | Waiting | Closed
  datatype Caller = Spawning | Reading | Returned(errors: seq<Wire.Error>)

  // got is what the caller has received so far, with the number of the sender.
  datatype State = State(total: nat, senders: seq<Sender>, wg: int, closer: Closer, caller: Caller,
                         replies: map<nat, Reply>, got: seq<(nat, Reply)>)

  datatype Step =
    | Spawn                       // wg.Add(1) and the go statement
    | Reply(i: nat, reply: Reply) // the peer call of sender i returns
    | Receive(i: nat)             // sender i and the caller meet on the channel
    | Done(i: nat)                // wg.Done
    | StartCloser
    | Close                       // the wait group is empty
    | Stop                        // the caller finds the channel closed

  predicate Enabled(s: State, step: Step) {
    match step
    case Spawn => s.caller.Spawning? && |s.senders| < s.total
    case Reply(i, _) => i < |s.senders| && s.senders[i].Calling?
    case Receive(i) => i < |s.senders| && s.senders[i].Sending? && s.caller.Reading? && !s.closer.Closed?
    case Done(i) => i < |s.senders| && s.senders[i].Sent?
    case StartCloser => s.caller.Spawning? && |s.senders| == s.total
    case Close => s.closer.Waiting? && s.wg == 0
    case Stop => s.caller.Reading? && s.closer.Closed?
  }

  // MultiError.Add ignores nil.
  function Errors(got: seq<(nat, Reply)>): (es: seq<Wire.Error>) {
    if got == [] then []
    else
      var r := got[|got| - 1].1;
      Errors(got[..|got| - 1]) + if r.Some? then [r.value] else []
  }

  function Apply(s: State, step: Step): (s': State)
    requires Enabled(s, step)
  {
    match step
    case Spawn => s.(senders := s.senders + [Calling], wg := s.wg + 1)
    case Reply(i, r) => s.(senders := s.senders[i := Sending(r)], replies := s.replies[i := r])
    case Receive(i) => s.(senders := s.senders[i := Sent], got := s.got + [(i, s.senders[i].reply)])
    case Done(i) => s.(senders := s.senders[i := Finished], wg := s.wg - 1)
    case StartCloser => s.(closer := Waiting, caller := Reading)
    case Close => s.(closer := Closed)
    case Stop => s.(caller := Returned(Errors(s.got)))
  }

  ghost predicate IsRun(ss: seq<State>, steps: seq<Step>) {
    && |ss| == |steps| + 1
    && ss[0] == State(ss[0].total, [], 0, NotStarted, Spawning, map[], [])
    && forall i :: 0 <= i < |steps| ==> Enabled(ss[i], steps[i]) && ss[i + 1] == Apply(ss[i], steps[i])
  }

  // ---------- sums over the senders ----------

  function Live(ss: seq<Sender>): (n: nat) {
    if ss == [] then 0 else Live(ss[..|ss| - 1]) + if ss[|ss| - 1].Finished? then 0 else 1
  }

  function RankOf(x: Sender): (n: nat) {
    match x
    case Calling => 3
    case Sending(_) => 2
    case Sent => 1
    case Finished => 0
  }

  function Ranks(ss: seq<Sender>): (n: nat) {
    if ss == [] then 0 else Ranks(ss[..|ss| - 1]) + RankOf(ss[|ss| - 1])
  }

  lemma {:induction false} Replaced(ss: seq<Sender>, i: nat, x: Sender)
    requires i < |ss|
    ensures Live(ss[i := x]) == Live(ss) - (if ss[i].Finished? then 0 else 1) + (if x.Finished? then 0 else 1)
    ensures Ranks(ss[i := x]) == Ranks(ss) - RankOf(ss[i]) + RankOf(x)
    decreases |ss|
  {
    var n := |ss| - 1;
    if i == n {
      assert ss[i := x][..n] == ss[..n];
    } else {
      assert ss[i := x][..n] == ss[..n][i := x];
      Replaced(ss[..n], i, x);
    }
  }

  lemma {:induction false} SomeLive(ss: seq<Sender>) returns (i: nat)
    requires Live(ss) > 0
    ensures i < |ss| && !ss[i].Finished?
  {
    if ss[|ss| - 1].Finished? {
      i := SomeLive(ss[..|ss| - 1]);
    } else {
      i := |ss| - 1;
    }
  }

  lemma {:induction false} NoneLive(ss: seq<Sender>, i: nat)
    requires Live(ss) == 0 && i < |ss|
    ensures ss[i].Finished?
    decreases |ss|
  {
    if i < |ss| - 1 {
      NoneLive(ss[..|ss| - 1], i);
    }
  }

  // ---------- the invariant ----------

  ghost predicate SenderInv(s: State, i: nat) {
    i < |s.senders| ==>
      match s.senders[i]
      case Calling => i !in s.replies && Unheard(s, i)
      case Sending(r) => i in s.replies && s.replies[i] == r && Unheard(s, i)
      case _ => i in s.replies && (i, s.replies[i]) in s.got
  }

  ghost predicate Unheard(s: State, i: nat) {
    forall j :: 0 <= j < |s.got| ==> s.got[j].0 != i
  }

  ghost predicate GotInv(s: State) {
    && (forall j :: 0 <= j < |s.got| ==>
          s.got[j].0 < |s.senders| && s.got[j].0 in s.replies && s.replies[s.got[j].0] == s.got[j].1)
    && (forall j, j' :: 0 <= j < j' < |s.got| ==> s.got[j].0 != s.got[j'].0)
  }

  ghost predicate Inv(s: State) {
    && |s.senders| <= s.total && s.wg == Live(s.senders)
    && (forall i: nat {:trigger SenderInv(s, i)} :: SenderInv(s, i))
    && GotInv(s) && (forall i :: i in s.replies ==> i < |s.senders|)
    && (s.closer.NotStarted? <==> s.caller.Spawning?)
    && (!s.caller.Spawning? ==> |s.senders| == s.total)
    && (s.closer.Closed? ==> s.wg == 0)
    && (s.caller.Returned? ==> s.closer.Closed? && s.caller.errors == Errors(s.got))
  }

  lemma SenderKept(s: State, step: Step, i: nat)
    requires Inv(s) && Enabled(s, step)
    ensures SenderInv(Apply(s, step), i)
  {
    assert SenderInv(s, i);
    if step.Receive? {
      var s' := Apply(s, step);
      assert SenderInv(s, step.i);
      assert s'.got[|s.got|] == (step.i, s.senders[step.i].reply) && s'.got[..|s.got|] == s.got;
    }
  }

  lemma CountKept(s: State, step: Step)
    requires Inv(s) && Enabled(s, step)
    ensures Apply(s, step).wg == Live(Apply(s, step).senders)
    ensures s.closer.Closed? ==> Apply(s, step).wg == 0
  {
    match step
    case Reply(i, r) => Replaced(s.senders, i, Sending(r));
    case Receive(i) => Replaced(s.senders, i, Sent);
    case Done(i) =>
      Replaced(s.senders, i, Finished);
      LiveMeansOpen(s, i);
    case _ =>
  }

  lemma StepKeepsInv(s: State, step: Step)
    requires Inv(s) && Enabled(s, step)
    ensures Inv(Apply(s, step))
  {
    CountKept(s, step);
    forall i: nat
      ensures SenderInv(Apply(s, step), i)
    {
      SenderKept(s, step, i);
    }
    if step.Receive? || step.Reply? {
      assert SenderInv(s, step.i);
    }
  }

  lemma LiveMeansOpen(s: State, i: nat)
    requires Inv(s) && i < |s.senders| && !s.senders[i].Finished?
    ensures s.wg > 0 && !s.closer.Closed?
  {
    if Live(s.senders) == 0 {
      NoneLive(s.senders, i);
    }
  }

  lemma {:induction false} Invariant(ss: seq<State>, steps: seq<Step>, i: nat)
    requires IsRun(ss, steps) && i < |ss|
    ensures Inv(ss[i]) && ss[i].total == ss[0].total
  {
    if i > 0 {
      Invariant(ss, steps, i - 1);
      StepKeepsInv(ss[i - 1], steps[i - 1]);
    }
  }

  // ---------- results ----------

  // Nobody sends, or will send, on the channel once it is closed.
  lemma NoSendAfterClose(ss: seq<State>, steps: seq<Step>, i: nat, k: nat)
    requires IsRun(ss, steps) && i < |ss| && ss[i].closer.Closed? && k < |ss[i].senders|
    ensures |ss[i].senders| == ss[0].total && ss[i].senders[k].Finished?
  {
    Invariant(ss, steps, i);
    NoneLive(ss[i].senders, k);
  }

  lemma {:induction false} ErrorsOf(got: seq<(nat, Reply)>)
    ensures Errors(got) == [] <==> forall j :: 0 <= j < |got| ==> got[j].1.None?
    decreases |got|
  {
    if got != [] {
      ErrorsOf(got[..|got| - 1]);
    }
  }

  // When the caller returns it has received exactly one result from every sender, and it returns
  // nil if and only if all of them are nil.
  lemma CollectsEverything(ss: seq<State>, steps: seq<Step>, i: nat)
    requires IsRun(ss, steps) && i < |ss| && ss[i].caller.Returned?
    ensures forall k: nat :: k < ss[0].total ==> k in ss[i].replies && (k, ss[i].replies[k]) in ss[i].got
    ensures forall j, j' :: 0 <= j < j' < |ss[i].got| ==> ss[i].got[j].0 != ss[i].got[j'].0
    ensures forall j :: 0 <= j < |ss[i].got| ==> ss[i].got[j].0 < ss[0].total
    ensures ss[i].caller.errors == Errors(ss[i].got)
    ensures ss[i].caller.errors == []
       <==> forall k: nat :: k < ss[0].total ==> k in ss[i].replies && ss[i].replies[k].None?
  {
    Invariant(ss, steps, i);
    var s := ss[i];
    forall k: nat | k < s.total
      ensures k in s.replies && (k, s.replies[k]) in s.got
    {
      NoSendAfterClose(ss, steps, i, k);
      assert SenderInv(s, k);
    }
    ErrorsOf(s.got);
    if s.caller.errors == [] {
      forall k: nat | k < s.total
        ensures s.replies[k].None?
      {
        var j :| 0 <= j < |s.got| && s.got[j] == (k, s.replies[k]);
      }
    }
  }

  // How much is left to do.
  function Remaining(s: State): (n: nat)
    requires |s.senders| <= s.total
  {
    4 * (s.total - |s.senders|) + Ranks(s.senders)
    + (match s.closer case NotStarted => 2 case Waiting => 1 case Closed => 0)
    + if s.caller.Returned? then 0 else 1
  }

  lemma StepMakesProgress(s: State, step: Step)
    requires Inv(s) && Enabled(s, step)
    ensures Inv(Apply(s, step)) && Remaining(Apply(s, step)) < Remaining(s)
  {
    StepKeepsInv(s, step);
    match step
    case Reply(i, r) => Replaced(s.senders, i, Sending(r));
    case Receive(i) => Replaced(s.senders, i, Sent);
    case Done(i) => Replaced(s.senders, i, Finished);
    case _ =>
  }

  // Every run is finite, and it can always go on until the caller has returned: as long as each
  // peer call returns, the fan-out ends.
  lemma {:induction false} RunsAreShort(ss: seq<State>, steps: seq<Step>, i: nat)
    requires IsRun(ss, steps) && i < |ss|
    ensures Inv(ss[i]) && i + Remaining(ss[i]) <= 4 * ss[0].total + 3
  {
    if i > 0 {
      RunsAreShort(ss, steps, i - 1);
      StepMakesProgress(ss[i - 1], steps[i - 1]);
    }
  }

  lemma NeverStuck(s: State) returns (step: Step)
    requires Inv(s) && !s.caller.Returned?
    ensures Enabled(s, step)
  {
    if s.caller.Spawning? {
      step := if |s.senders| < s.total then Spawn else StartCloser;
    } else if s.closer.Closed? {
      step := Stop;
    } else if s.wg == 0 {
      step := Close;
    } else {
      var i := SomeLive(s.senders);
      step := match s.senders[i] case Calling => Reply(i, None) case Sending(_) => Receive(i) case _ => Done(i);
    }
  }
}
