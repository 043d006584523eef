/** `Close` against `Enqueue`: closing the jobs channel is safe exactly when no call has passed
    its check of the closed flag without having finished its send. */
module ProtocolClose {
  import opened Protocol
  import opened ProtocolJobs
  import opened ProtocolStore

  /** The call saw the flag clear and has not sent yet. */
  predicate Sender(c: CallPC) {
    c.Setting? || c.Storing? || c.Sending?
  }

  ghost predicate SendersGone(calls: map<nat, CallPC>) {
    forall j | j in calls :: !Sender(calls[j])
  }

  ghost predicate NoPanic(calls: map<nat, CallPC>) {
    forall j | j in calls :: !calls[j].Panicked?
  }

  /** A stretch of a run. */
  ghost predicate Stretch(ss: seq<State>) {
    |ss| > 0 && forall k | 0 <= k < |ss| - 1 :: Next(ss[k], ss[k + 1])
  }

  lemma CallAfterClose(s: State, j: nat, giveUp: bool)
    requires j in s.calls && j < |s.memory.heap| && Running(s.calls[j])
    requires s.gate.closed && SendersGone(s.calls) && NoPanic(s.calls)
    ensures SendersGone(DoCall(s, j, giveUp).calls) && NoPanic(DoCall(s, j, giveUp).calls)
  {
    assert s.calls[j].Checking? || s.calls[j].Counting?;
    var c := DoCall(s, j, giveUp).calls[j];
    assert DoCall(s, j, giveUp).calls == s.calls[j := c];
  }

  lemma StepAfterClose(s: State, a: Action)
    requires s.gate.closed && SendersGone(s.calls) && NoPanic(s.calls) && Enabled(s, a)
    ensures Do(s, a).gate.closed && SendersGone(Do(s, a).calls) && NoPanic(Do(s, a).calls)
  {
    hide DoCall, DoWork, DoRead;
    match a
    case Call(j, giveUp) => CallAfterClose(s, j, giveUp); CallFrame(s, j, giveUp);
    case Work(i) => WorkFrame(s, i);
    case Read(w) => ReadFrame(s, w);
    case _ =>
  }

  lemma {:induction false} NoPanicAfterCleanClose(ss: seq<State>, k: nat)
    requires Stretch(ss) && k < |ss| && ss[0].gate.closed && SendersGone(ss[0].calls) && NoPanic(ss[0].calls)
    ensures ss[k].gate.closed && SendersGone(ss[k].calls) && NoPanic(ss[k].calls)
  {
    if k > 0 {
      NoPanicAfterCleanClose(ss, k - 1);
      assert Next(ss[k - 1], ss[k - 1 + 1]);
      var a :| Enabled(ss[k - 1], a) && ss[k] == Do(ss[k - 1], a);
      StepAfterClose(ss[k - 1], a);
    }
  }

  /** A call that has passed the check can run into the closed channel. */
  lemma SenderPanics(s: State, j: nat) returns (ss: seq<State>)
    requires s.gate.shut && j in s.calls && j < |s.memory.heap| && Sender(s.calls[j])
    ensures Stretch(ss) && ss[0] == s && !NoPanic(ss[|ss| - 1].calls)
    decreases if s.calls[j].Setting? then 2 else if s.calls[j].Storing? then 1 else 0
  {
    var s' := DoCall(s, j, false);
    assert Enabled(s, Call(j, false)) && Do(s, Call(j, false)) == s';
    if s.calls[j].Sending? {
      ss := [s, s'];
      assert s'.calls[j].Panicked?;
    } else {
      assert s'.gate == s.gate && j in s'.calls && j < |s'.memory.heap|;
      assert if s.calls[j].Setting? then s'.calls[j].Storing? else s'.calls[j].Sending?;
      var rest := SenderPanics(s', j);
      ss := [s] + rest;
      assert ss[|ss| - 1] == rest[|rest| - 1];
      forall k | 0 <= k < |ss| - 1 ensures Next(ss[k], ss[k + 1]) {
        if k > 0 { assert ss[k] == rest[k - 1] && ss[k + 1] == rest[k - 1 + 1]; }
      }
    }
  }

  /** Closing the channel can lead to a panic in some `Enqueue` call if and only if a call stands
      between its check and its send at that moment. */
  lemma CloseIsSafeExactly(s: State)
    requires JobInv(s) && Enabled(s, CloseJobs) && NoPanic(s.calls)
    ensures (exists ss: seq<State> :: Stretch(ss) && ss[0] == Do(s, CloseJobs) && !NoPanic(ss[|ss| - 1].calls))
      <==> !SendersGone(s.calls)
  {
    var s' := Do(s, CloseJobs);
    if SendersGone(s.calls) {
      forall ss: seq<State> | Stretch(ss) && ss[0] == s' ensures NoPanic(ss[|ss| - 1].calls) {
        NoPanicAfterCleanClose(ss, |ss| - 1);
      }
    } else {
      JobsAreObjects(s);
      var j :| j in s.calls && Sender(s.calls[j]);
      var ss := SenderPanics(s', j);
    }
  }
}
