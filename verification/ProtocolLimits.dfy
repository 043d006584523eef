/** Listener channels, the sweeper and refused jobs at the edges of their promises. */
module ProtocolLimits {
  import opened Wrappers
  import opened Jobs
  import opened Protocol
  import opened ProtocolJobs
  import opened ProtocolStore
  import opened ProtocolBells
  import opened ProtocolCounters
  import opened ProtocolWakeup
  import opened ProtocolRuns

  // Listener channels, for any number of waiting calls.

  /** Every listener channel gets at most one value and is closed at most once, after the value;
      a worker about to send finds room, so it never takes the default branch. */
  lemma ListenerSafety(tr: seq<State>, k: nat)
    requires Run(tr) && k < |tr|
    ensures forall c | 0 <= c < |tr[k].bells.channels| ::
      var ch := tr[k].bells.channels[c]; ch.closes <= ch.puts <= 1
    ensures forall i | 0 <= i < |tr[k].crew.workers| && tr[k].crew.workers[i].Notifying? ::
      var c := tr[k].crew.workers[i].ch;
      c < |tr[k].bells.channels| && tr[k].bells.channels[c].buffer == [] && tr[k].bells.channels[c].closes == 0
    ensures forall i | 0 <= i < |tr[k].crew.workers| && tr[k].crew.workers[i].Closing? ::
      var c := tr[k].crew.workers[i].ch;
      c < |tr[k].bells.channels| && tr[k].bells.channels[c].puts == 1 && tr[k].bells.channels[c].closes == 0
  {
    hide AllInv, JobInv, ShelfInv, CountInv, WakeInv;
    RunKeepsAll(tr, k);
    AllParts(tr[k]);
    var s := tr[k];
    assert forall c | 0 <= c < |s.bells.channels| :: ChannelOk(s.memory, s.crew.workers, c, s.bells.channels[c]);
  }

  /** A blocked call that can go on receives a finished job of its own token. */
  lemma BlockedReceives(s: State, w: nat)
    requires JobInv(s) && ShelfInv(s) && BellInv(s)
    requires w < |s.bells.readers| && s.bells.readers[w].pc.Blocked? && ReadEnabled(s, s.bells.readers[w].pc)
    ensures var c := s.bells.readers[w].pc.ch;
      && Delivers(s, c) && Finished(s.memory.heap[s.bells.channels[c].buffer[0]])
      && s.memory.heap[s.bells.channels[c].buffer[0]].token == s.bells.readers[w].token
  {
    var c := s.bells.readers[w].pc.ch;
    assert ChannelOk(s.memory, s.crew.workers, c, s.bells.channels[c]);
    assert s.bells.channels[c].buffer[0] in s.bells.channels[c].buffer;
  }

  lemma BlockedCanReturn(s: State, w: nat)
    requires w < |s.bells.readers| && s.bells.readers[w].pc.Blocked? && ReadEnabled(s, s.bells.readers[w].pc)
    requires Delivers(s, s.bells.readers[w].pc.ch)
    ensures CanReturn(s, w, s.memory.heap[s.bells.channels[s.bells.readers[w].pc.ch].buffer[0]])
  {
    hide ReadSeen;
  }

  /** Whenever a blocked call can go on by its channel, in any state of any run and for any number
      of waiting calls, it returns a finished job of its own token. */
  lemma WokenWithResult(tr: seq<State>, k: nat, w: nat) returns (job: Job)
    requires Run(tr) && k < |tr| && w < |tr[k].bells.readers| && tr[k].bells.readers[w].pc.Blocked?
    requires Enabled(tr[k], Read(w))
    ensures CanReturn(tr[k], w, job) && Finished(job) && job.token == tr[k].bells.readers[w].token
  {
    hide AllInv, JobInv, ShelfInv, BellInv, CountInv, WakeInv, CanReturn, Delivers;
    RunKeepsAll(tr, k);
    AllParts(tr[k]);
    BlockedReceives(tr[k], w);
    BlockedCanReturn(tr[k], w);
    job := tr[k].memory.heap[tr[k].bells.channels[tr[k].bells.readers[w].pc.ch].buffer[0]];
  }

  /** What a call has found is of its token, finished where it has to be, and never nil. */
  predicate ReplyOk(r: Reader) {
    match r.pc
    case Leaving(_, found) => Finished(found) && found.token == r.token
    case Returned(reply) => reply != Nil && (reply.Got? ==> reply.job.token == r.token)
    case _ => true
  }

  /** A waiting call that is past its timer, or has returned what only the timer explains. */
  predicate Late(r: Reader) {
    r.waits && match r.pc
      case LastLoad => true
      case LastLook(_) => true
      case Returned(Missing) => true
      case Returned(Got(job)) => !Finished(job)
      case _ => false
  }

  predicate TimerFired(r: Reader) {
    r.pc.GivenUp? && r.pc.timer
  }

  ghost predicate RepliesInv(readers: seq<Reader>) {
    forall w | 0 <= w < |readers| :: ReplyOk(readers[w])
  }

  /** No reader becomes late but by its timer. */
  ghost predicate LateByTimer(readers: seq<Reader>, readers': seq<Reader>) {
    && |readers| <= |readers'|
    && (forall w | 0 <= w < |readers| && Late(readers'[w]) :: Late(readers[w]) || TimerFired(readers[w]))
    && (forall w | |readers| <= w < |readers'| :: !Late(readers'[w]))
  }

  /** What a reader has loaded is of its token. */
  lemma LookedAtOwn(s: State, w: nat)
    requires ShelfInv(s) && w < |s.bells.readers|
    ensures var p := s.bells.readers[w].pc; Looking(p) ==>
      p.ref < |s.memory.heap| && s.memory.heap[p.ref].token == s.bells.readers[w].token
  {
    hide SnapshotInv, CopyInv, StoreInv, SeenInv, EntryInv;
  }

  lemma ReadReplies(s: State, w: nat)
    requires JobInv(s) && ShelfInv(s) && BellInv(s) && RepliesInv(s.bells.readers)
    requires w < |s.bells.readers| && ReadEnabled(s, s.bells.readers[w].pc)
    ensures var r := s.bells.readers[w];
      var r' := r.(pc := NextRead(s, w));
      ReplyOk(r') && (Late(r') ==> Late(r) || TimerFired(r))
  {
    hide JobInv, ShelfInv, BellInv;
    assert ReplyOk(s.bells.readers[w]);
    LookedAtOwn(s, w);
    if s.bells.readers[w].pc.Blocked? {
      BlockedReceives(s, w);
    }
    hide Delivers;
  }

  lemma ReadKeepsReplies(s: State, w: nat)
    requires JobInv(s) && ShelfInv(s) && BellInv(s) && RepliesInv(s.bells.readers)
    requires w < |s.bells.readers| && ReadEnabled(s, s.bells.readers[w].pc)
    ensures RepliesInv(DoRead(s, w).bells.readers) && LateByTimer(s.bells.readers, DoRead(s, w).bells.readers)
  {
    hide JobInv, ShelfInv, BellInv, DoRead, NextRead, ReplyOk, Late, TimerFired;
    ReadReplies(s, w);
    ReadMovesOne(s, w);
  }

  lemma StepKeepsReplies(s: State, a: Action)
    requires JobInv(s) && ShelfInv(s) && BellInv(s) && RepliesInv(s.bells.readers) && Enabled(s, a)
    ensures RepliesInv(Do(s, a).bells.readers) && LateByTimer(s.bells.readers, Do(s, a).bells.readers)
  {
    hide JobInv, ShelfInv, BellInv, DoCall, DoWork, DoRead;
    match a
    case Work(i) => WorkFrame(s, i);
    case Call(j, giveUp) => CallFrame(s, j, giveUp);
    case Read(w) => ReadKeepsReplies(s, w);
    case _ =>
  }

  /** The receive in `WaitForResult` never yields nil, and no call returns another token's job. */
  lemma {:induction false} NeverNil(tr: seq<State>, k: nat)
    requires Run(tr) && k < |tr|
    ensures RepliesInv(tr[k].bells.readers)
    ensures k > 0 ==> LateByTimer(tr[k - 1].bells.readers, tr[k].bells.readers)
  {
    hide AllInv, JobInv, ShelfInv, BellInv, CountInv, WakeInv, Do, Enabled;
    if k > 0 {
      NeverNil(tr, k - 1);
      RunKeepsAll(tr, k - 1);
      AllParts(tr[k - 1]);
      assert Next(tr[k - 1], tr[k - 1 + 1]);
      var a :| Enabled(tr[k - 1], a) && tr[k] == Do(tr[k - 1], a);
      StepKeepsReplies(tr[k - 1], a);
    }
  }

  /** A waiting call returns an unfinished job, or none, only after its timer has fired. */
  lemma {:induction false} UnfinishedMeansTimer(tr: seq<State>, k: nat, w: nat) returns (l: nat)
    requires Run(tr) && k < |tr| && w < |tr[k].bells.readers| && Late(tr[k].bells.readers[w])
    ensures l < k && w < |tr[l].bells.readers| && TimerFired(tr[l].bells.readers[w])
  {
    hide Late, TimerFired, RepliesInv;
    NeverNil(tr, k);
    if k > 0 {
      l := k - 1;
      if !TimerFired(tr[l].bells.readers[w]) {
        l := UnfinishedMeansTimer(tr, k - 1, w);
      }
    }
  }

  // Why one waiting call per token is needed.

  ghost predicate TakenApart(channels: seq<Listener>) {
    forall c, d | 0 <= c < d < |channels| && channels[c].taker.Some? && channels[d].taker.Some? ::
      channels[c].token != channels[d].token
  }

  /** A taken channel means that the worker of its token's job is past its look; no two channels
      of one token are ever taken. */
  ghost predicate TakenInv(s: State) {
    && (forall c | 0 <= c < |s.bells.channels| && s.bells.channels[c].taker.Some? ::
          !NonePast(s.memory, s.calls, s.crew, s.bells.channels[c].token))
    && TakenApart(s.bells.channels)
  }

  lemma PastStaysAtWork(s: State, i: nat, j: nat)
    requires JobInv(s) && i < |s.crew.workers| && WorkEnabled(s, s.crew.workers[i]) && Past(s.crew, j)
    ensures Past(DoWork(s, i).crew, j)
  {
    hide JobInv;
    WorkerHolds(s, i);
    var p := s.crew.workers[i];
    var p' := DoWork(s, i).crew.workers[i];
    if p'.Idle? {
      assert DoWork(s, i).crew == Complete(s.crew, i, p.job);
    } else {
      assert DoWork(s, i).crew == Advance(s.crew, i, p');
      assert p'.job == p.job && (Stage(p) >= 12 ==> Stage(p') >= 12);
    }
  }

  lemma PastStays(s: State, a: Action, j: nat)
    requires JobInv(s) && Enabled(s, a) && Past(s.crew, j)
    ensures Past(Do(s, a).crew, j)
  {
    hide JobInv, DoCall, DoWork, DoRead;
    match a
    case Work(i) => PastStaysAtWork(s, i, j);
    case Call(k, giveUp) => CallFrame(s, k, giveUp);
    case Read(w) => ReadFrame(s, w);
    case Receive(i) => HeadIsUnowned(s); PastIsOwned(s, j);
    case _ =>
  }

  lemma SomePastStays(s: State, a: Action, token: string)
    requires JobInv(s) && ShelfInv(s) && Enabled(s, a) && !NonePast(s.memory, s.calls, s.crew, token)
    ensures !NonePast(Do(s, a).memory, Do(s, a).calls, Do(s, a).crew, token)
  {
    hide JobInv, ShelfInv, Do, Enabled, Past;
    var j :| j in s.calls && j < |s.memory.heap| && s.memory.heap[j].token == token && Past(s.crew, j);
    PastStays(s, a, j);
    ShelfParts(s);
    StepGrows(s, a);
    PastIsOwned(s, j);
    OwnedWasSent(s, j);
  }

  /** How the takers change: only by a worker's look. */
  lemma TakersChange(s: State, a: Action)
    requires Enabled(s, a)
    ensures var channels := Do(s, a).bells.channels;
      && |s.bells.channels| <= |channels|
      && (forall c | 0 <= c < |s.bells.channels| ::
            channels[c].token == s.bells.channels[c].token && channels[c].owner == s.bells.channels[c].owner)
      && (forall c | |s.bells.channels| <= c < |channels| :: channels[c].taker == None)
      && (forall c | 0 <= c < |s.bells.channels| && channels[c].taker != s.bells.channels[c].taker ::
            && a.Work? && s.crew.workers[a.worker].Published?
            && Listening(s.bells, s.memory.heap[s.crew.workers[a.worker].job].token)
            && c == s.bells.listeners[s.memory.heap[s.crew.workers[a.worker].job].token])
  {
    if a.Call? { CallFrame(s, a.j, a.giveUp); }
    hide DoCall;
    if a.Work? { TakersAtWork(s, a.worker); }
    if a.Read? { TakersAtRead(s, a.reader); }
    hide DoWork, DoRead;
  }

  lemma TakersAtWork(s: State, i: nat)
    requires i < |s.crew.workers| && WorkEnabled(s, s.crew.workers[i])
    ensures var channels := DoWork(s, i).bells.channels;
      && |s.bells.channels| == |channels|
      && (forall c | 0 <= c < |channels| ::
            channels[c].token == s.bells.channels[c].token && channels[c].owner == s.bells.channels[c].owner)
      && (forall c | 0 <= c < |s.bells.channels| && channels[c].taker != s.bells.channels[c].taker ::
            && s.crew.workers[i].Published?
            && Listening(s.bells, s.memory.heap[s.crew.workers[i].job].token)
            && c == s.bells.listeners[s.memory.heap[s.crew.workers[i].job].token])
  {
    var p := s.crew.workers[i];
    if p.Published? || p.Notifying? || p.Closing? {
    } else {
      assert DoWork(s, i).bells == s.bells;
    }
  }

  lemma TakersAtRead(s: State, w: nat)
    requires w < |s.bells.readers| && ReadEnabled(s, s.bells.readers[w].pc)
    ensures var channels := DoRead(s, w).bells.channels;
      && |s.bells.channels| <= |channels|
      && (forall c | 0 <= c < |s.bells.channels| ::
            channels[c].token == s.bells.channels[c].token && channels[c].owner == s.bells.channels[c].owner
            && channels[c].taker == s.bells.channels[c].taker)
      && (forall c | |s.bells.channels| <= c < |channels| :: channels[c].taker == None)
  {
    hide NextRead, ReadSeen;
  }

  /** The look happens once per job, so before it no channel of its token is taken. */
  lemma NoneTakenBeforeLook(s: State, i: nat)
    requires JobInv(s) && TakenInv(s) && i < |s.crew.workers| && s.crew.workers[i].Published?
    requires s.crew.workers[i].job < |s.memory.heap|
    ensures var token := s.memory.heap[s.crew.workers[i].job].token;
      forall c | 0 <= c < |s.bells.channels| && s.bells.channels[c].token == token :: s.bells.channels[c].taker == None
  {
    hide JobInv;
    var j := s.crew.workers[i].job;
    WorkerHolds(s, i);
    WorkerOwns(s, i);
    forall k | k in s.calls && k < |s.memory.heap| && s.memory.heap[k].token == s.memory.heap[j].token
      ensures !Past(s.crew, k)
    {
      SameToken(s, k, j);
    }
    assert NonePast(s.memory, s.calls, s.crew, s.memory.heap[j].token);
  }

  /** At most channel `look` was taken, and before no other of its token was. */
  lemma OneTakenMore(channels: seq<Listener>, channels': seq<Listener>, look: Option<nat>)
    requires TakenApart(channels) && |channels| <= |channels'|
    requires forall c | 0 <= c < |channels| :: channels'[c].token == channels[c].token
    requires forall c | 0 <= c < |channels| && look != Some(c) :: channels'[c].taker == channels[c].taker
    requires forall c | |channels| <= c < |channels'| :: channels'[c].taker == None
    requires look.Some? ==> look.value < |channels|
    requires look.Some? ==>
      forall c | 0 <= c < |channels| && channels[c].token == channels[look.value].token :: channels[c].taker == None
    ensures TakenApart(channels')
  {
  }

  /** The channel that the worker's look takes, if the action is a look that finds one. */
  function Looked(s: State, a: Action): Option<nat>
    requires Enabled(s, a)
  {
    if a.Work? && s.crew.workers[a.worker].Published?
      && Listening(s.bells, s.memory.heap[s.crew.workers[a.worker].job].token)
    then Some(s.bells.listeners[s.memory.heap[s.crew.workers[a.worker].job].token]) else None
  }

  lemma TakersStayApart(s: State, a: Action)
    requires JobInv(s) && BellInv(s) && TakenInv(s) && Enabled(s, a)
    ensures TakenApart(Do(s, a).bells.channels)
  {
    TakersChange(s, a);
    ListenersOfBell(s);
    if Looked(s, a).Some? {
      NoneTakenBeforeLook(s, a.worker);
    }
    hide JobInv, BellInv, Do, NonePast;
    OneTakenMore(s.bells.channels, Do(s, a).bells.channels, Looked(s, a));
  }

  lemma StepKeepsTaken(s: State, a: Action)
    requires JobInv(s) && ShelfInv(s) && BellInv(s) && TakenInv(s) && Enabled(s, a)
    ensures TakenInv(Do(s, a))
  {
    var s' := Do(s, a);
    TakersStayApart(s, a);
    TakersChange(s, a);
    if a.Work? && s.crew.workers[a.worker].Published? {
      LookMakesPast(s, a.worker);
    }
    ListenersOfBell(s);
    hide JobInv, ShelfInv, BellInv, Do, Enabled, NonePast;
    forall c | 0 <= c < |s'.bells.channels| && s'.bells.channels[c].taker.Some?
      ensures !NonePast(s'.memory, s'.calls, s'.crew, s'.bells.channels[c].token)
    {
      if s'.bells.channels[c].taker == s.bells.channels[c].taker {
        SomePastStays(s, a, s.bells.channels[c].token);
      }
    }
  }

  lemma ListenersOfBell(s: State)
    requires BellInv(s)
    ensures ListenersInv(s.bells)
  {
  }

  lemma LookMakesPast(s: State, i: nat)
    requires JobInv(s) && i < |s.crew.workers| && s.crew.workers[i].Published?
    requires s.crew.workers[i].job < |s.memory.heap|
    ensures var s' := DoWork(s, i);
      !NonePast(s'.memory, s'.calls, s'.crew, s.memory.heap[s.crew.workers[i].job].token)
  {
    hide JobInv;
    WorkerHolds(s, i);
    WorkerOwns(s, i);
    var p := s.crew.workers[i];
    var crew := DoWork(s, i).crew;
    if Listening(s.bells, s.memory.heap[p.job].token) {
      assert crew == Advance(s.crew, i, Notifying(p.job, p.snap, s.bells.listeners[s.memory.heap[p.job].token]));
    } else {
      assert crew == Complete(s.crew, i, p.job);
    }
    assert Past(crew, p.job);
    assert DoWork(s, i).memory == s.memory && DoWork(s, i).calls == s.calls;
  }

  lemma {:induction false} RunKeepsTaken(tr: seq<State>, k: nat)
    requires Run(tr) && k < |tr|
    ensures TakenInv(tr[k])
  {
    hide AllInv, JobInv, ShelfInv, BellInv, CountInv, WakeInv, Do, Enabled;
    if k > 0 {
      RunKeepsTaken(tr, k - 1);
      RunKeepsAll(tr, k - 1);
      AllParts(tr[k - 1]);
      assert Next(tr[k - 1], tr[k - 1 + 1]);
      var a :| Enabled(tr[k - 1], a) && tr[k] == Do(tr[k - 1], a);
      StepKeepsTaken(tr[k - 1], a);
    }
  }

  /** Channels keep their token and owner and stay taken; readers keep their token. */
  ghost predicate BellsKeep(b: Bells, b': Bells) {
    && |b.channels| <= |b'.channels|
    && (forall c | 0 <= c < |b.channels| ::
          && b'.channels[c].token == b.channels[c].token && b'.channels[c].owner == b.channels[c].owner
          && (b.channels[c].taker.Some? ==> b'.channels[c].taker.Some?))
    && |b.readers| <= |b'.readers|
    && (forall w | 0 <= w < |b.readers| :: b'.readers[w].token == b.readers[w].token)
  }

  lemma ReadersKeep(s: State, a: Action)
    requires Enabled(s, a)
    ensures |s.bells.readers| <= |Do(s, a).bells.readers|
    ensures forall w | 0 <= w < |s.bells.readers| :: Do(s, a).bells.readers[w].token == s.bells.readers[w].token
  {
    hide DoCall, DoWork, DoRead;
    if a.Call? { CallFrame(s, a.j, a.giveUp); }
    if a.Work? { WorkFrame(s, a.worker); }
    if a.Read? {
      ReadMovesOne(s, a.reader);
    }
  }

  lemma StepKeepsBellsKeep(s: State, a: Action)
    requires BellInv(s) && Enabled(s, a)
    ensures BellsKeep(s.bells, Do(s, a).bells)
  {
    TakersChange(s, a);
    ReadersKeep(s, a);
    ListenersOfBell(s);
    hide BellInv, Do;
  }

  lemma {:induction false} RunKeepsBells(tr: seq<State>, k: nat, l: nat)
    requires Run(tr) && k <= l < |tr|
    ensures BellsKeep(tr[k].bells, tr[l].bells)
  {
    hide AllInv, JobInv, ShelfInv, BellInv, CountInv, WakeInv, Do, Enabled;
    if k < l {
      RunKeepsBells(tr, k, l - 1);
      RunKeepsAll(tr, l - 1);
      AllParts(tr[l - 1]);
      assert Next(tr[l - 1], tr[l - 1 + 1]);
      var a :| Enabled(tr[l - 1], a) && tr[l] == Do(tr[l - 1], a);
      StepKeepsBellsKeep(tr[l - 1], a);
    }
  }

  /** A blocked call that can go on has a channel of its own that was taken. */
  lemma WokenWasTaken(s: State, w: nat)
    requires BellInv(s) && w < |s.bells.readers| && s.bells.readers[w].pc.Blocked?
    requires ReadEnabled(s, s.bells.readers[w].pc)
    ensures var ch := s.bells.channels[s.bells.readers[w].pc.ch];
      ch.owner == w && ch.token == s.bells.readers[w].token && ch.taker.Some?
  {
    var c := s.bells.readers[w].pc.ch;
    assert ChannelOk(s.memory, s.crew.workers, c, s.bells.channels[c]);
  }

  /** There is one listener slot per token: once one of two calls that wait for a token can go on
      by its channel, the other never can, then or later, for as long as it stays blocked. */
  lemma AtMostOneWoken(tr: seq<State>, k: nat, l: nat, v: nat, w: nat)
    requires Run(tr) && k <= l < |tr| && v < |tr[k].bells.readers| && w < |tr[l].bells.readers| && v != w
    requires tr[k].bells.readers[v].pc.Blocked? && Enabled(tr[k], Read(v))
    requires tr[l].bells.readers[w].pc.Blocked? && tr[l].bells.readers[w].token == tr[k].bells.readers[v].token
    ensures !Enabled(tr[l], Read(w))
  {
    hide AllInv, JobInv, ShelfInv, BellInv, CountInv, WakeInv, NonePast;
    RunKeepsAll(tr, k);
    RunKeepsAll(tr, l);
    AllParts(tr[k]);
    AllParts(tr[l]);
    RunKeepsTaken(tr, l);
    RunKeepsBells(tr, k, l);
    WokenWasTaken(tr[k], v);
    if Enabled(tr[l], Read(w)) {
      WokenWasTaken(tr[l], w);
      var c, d := tr[k].bells.readers[v].pc.ch, tr[l].bells.readers[w].pc.ch;
      TakenAreApart(tr[l], c, d);
    }
  }

  lemma TakenAreApart(s: State, c: nat, d: nat)
    requires TakenInv(s) && c < |s.bells.channels| && d < |s.bells.channels| && c != d
    requires s.bells.channels[c].taker.Some? && s.bells.channels[d].taker.Some?
    ensures s.bells.channels[c].token != s.bells.channels[d].token
  {
    hide NonePast;
  }

  /** At step `l` of a run a worker looks, and takes channel `c`, then the registered listener. */
  ghost predicate TakenAt(tr: seq<State>, l: nat, c: nat)
    requires l + 1 < |tr|
  {
    exists i: nat ::
      && Enabled(tr[l], Work(i)) && tr[l + 1] == Do(tr[l], Work(i))
      && Looked(tr[l], Work(i)) == Some(c)
  }

  /** A channel that has a taker was taken at some step, as the registered listener. */
  lemma {:induction false} TakerTook(tr: seq<State>, k: nat, c: nat) returns (l: nat)
    requires Run(tr) && k < |tr| && c < |tr[k].bells.channels| && tr[k].bells.channels[c].taker.Some?
    ensures l < k && TakenAt(tr, l, c)
  {
    hide Do, Enabled, Looked;
    if k > 0 {
      assert Next(tr[k - 1], tr[k - 1 + 1]);
      var a :| Enabled(tr[k - 1], a) && tr[k] == Do(tr[k - 1], a);
      TakerFromLook(tr[k - 1], a, c);
      if c < |tr[k - 1].bells.channels| && tr[k - 1].bells.channels[c].taker.Some? {
        l := TakerTook(tr, k - 1, c);
      } else {
        l := k - 1;
        assert a == Work(a.worker);
        assert TakenAt(tr, l, c);
      }
    }
  }

  lemma TakerFromLook(s: State, a: Action, c: nat)
    requires Enabled(s, a) && c < |Do(s, a).bells.channels| && Do(s, a).bells.channels[c].taker.Some?
    ensures c < |s.bells.channels|
    ensures s.bells.channels[c].taker.Some? || (a.Work? && Looked(s, a) == Some(c))
  {
    TakersChange(s, a);
  }

  lemma LookGivesTaker(s: State, i: nat, c: nat)
    requires Enabled(s, Work(i)) && Looked(s, Work(i)) == Some(c)
    ensures c < |Do(s, Work(i)).bells.channels| && Do(s, Work(i)).bells.channels[c].taker.Some?
  {
  }

  /** Once `SignalCompleted` of the token's job has returned, a blocked call of that token can go on
      exactly if its channel was the registered listener at the worker's look, however many calls
      wait for the token. */
  lemma WokenExactly(tr: seq<State>, k: nat, w: nat, j: nat)
    requires Run(tr) && k < |tr| && w < |tr[k].bells.readers| && tr[k].bells.readers[w].pc.Blocked?
    requires j in tr[k].crew.signalled && j < |tr[k].memory.heap|
    requires tr[k].memory.heap[j].token == tr[k].bells.readers[w].token
    ensures Enabled(tr[k], Read(w)) <==>
      exists l :: 0 <= l < k && TakenAt(tr, l, tr[k].bells.readers[w].pc.ch)
  {
    hide AllInv, JobInv, ShelfInv, BellInv, CountInv, WakeInv, TakenAt, Do;
    var c := tr[k].bells.readers[w].pc.ch;
    RunKeepsAll(tr, k);
    AllParts(tr[k]);
    BlockedHasNotReceived(tr[k], w);
    if Enabled(tr[k], Read(w)) {
      WokenWasTaken(tr[k], w);
      var l := TakerTook(tr, k, c);
    }
    if l :| 0 <= l < k && TakenAt(tr, l, c) {
      TakenStays(tr, l, k, c);
      TakenByNoOne(tr[k], c, j);
    }
  }

  lemma TakenStays(tr: seq<State>, l: nat, k: nat, c: nat)
    requires Run(tr) && l < k < |tr| && TakenAt(tr, l, c)
    ensures c < |tr[k].bells.channels| && tr[k].bells.channels[c].taker.Some?
  {
    hide Do, Enabled, Looked;
    var i: nat :| Enabled(tr[l], Work(i)) && tr[l + 1] == Do(tr[l], Work(i)) && Looked(tr[l], Work(i)) == Some(c);
    LookGivesTaker(tr[l], i, c);
    RunKeepsBells(tr, l + 1, k);
  }

  // Nothing is stuck.

  /** Every step that the program takes by itself is enabled: of `Enqueue` calls under way, of busy
      workers, of reading calls that are not blocked, and of the sweeper. */
  ghost predicate NothingStuck(s: State) {
    && (forall j | j in s.calls && Running(s.calls[j]) :: Enabled(s, Call(j, false)))
    && (forall i | 0 <= i < |s.crew.workers| && Busy(s.crew.workers[i]) && !s.crew.workers[i].Executing? ::
          Enabled(s, Work(i)))
    && (forall i | 0 <= i < |s.crew.workers| && s.crew.workers[i].Executing? ::
          s.crew.workers[i].job < |s.memory.heap|
          && forall final | FinalFor(s.memory.heap[s.crew.workers[i].job], final) :: Enabled(s, Finish(i, final)))
    && (forall w | 0 <= w < |s.bells.readers| && !s.bells.readers[w].pc.Blocked? && !s.bells.readers[w].pc.Returned? ::
          Enabled(s, Read(w)))
    && (s.shelf.sweeper.Visiting? ==> Enabled(s, SweepLook))
    && (s.shelf.sweeper.Aging? ==> Enabled(s, SweepAge))
    && (s.shelf.sweeper.Evicting? ==> Enabled(s, SweepDelete))
  }

  lemma HeldChannel(s: State, i: nat)
    requires BellInv(s) && i < |s.crew.workers| && (s.crew.workers[i].Notifying? || s.crew.workers[i].Closing?)
    ensures s.crew.workers[i].ch < |s.bells.channels|
  {
  }

  lemma WorkerNotStuck(s: State, i: nat)
    requires JobInv(s) && BellInv(s) && i < |s.crew.workers| && Busy(s.crew.workers[i])
    ensures s.crew.workers[i].job < |s.memory.heap|
    ensures !s.crew.workers[i].Executing? ==> Enabled(s, Work(i))
  {
    hide JobInv, BellInv;
    HoldsNow(s, i);
    if s.crew.workers[i].Notifying? || s.crew.workers[i].Closing? {
      HeldChannel(s, i);
    }
  }

  lemma ReaderNotStuck(s: State, w: nat)
    requires ShelfInv(s) && BellInv(s) && w < |s.bells.readers|
    requires !s.bells.readers[w].pc.Blocked? && !s.bells.readers[w].pc.Returned?
    ensures Enabled(s, Read(w))
  {
    hide BellInv;
    LookedAtOwn(s, w);
    hide ShelfInv;
  }

  /** In every state of every run: no safety result rests on a machine that cannot move. */
  lemma NothingStuckOnRuns(tr: seq<State>, k: nat)
    requires Run(tr) && k < |tr|
    ensures NothingStuck(tr[k])
  {
    hide AllInv, JobInv, ShelfInv, BellInv, CountInv, WakeInv, WorkEnabled, ReadEnabled, Decisive, Outdated, FinalFor;
    var s := tr[k];
    RunKeepsAll(tr, k);
    AllParts(s);
    RunKeepsSweep(tr, k);
    JobsAreObjects(s);
    forall i | 0 <= i < |s.crew.workers| && Busy(s.crew.workers[i])
      ensures s.crew.workers[i].job < |s.memory.heap| && (!s.crew.workers[i].Executing? ==> Enabled(s, Work(i)))
    {
      WorkerNotStuck(s, i);
    }
    forall w | 0 <= w < |s.bells.readers| && !s.bells.readers[w].pc.Blocked? && !s.bells.readers[w].pc.Returned?
      ensures Enabled(s, Read(w))
    {
      ReaderNotStuck(s, w);
    }
  }

  // The sweeper.

  /** The token was used, and its job's result is written. */
  ghost predicate Decisive(m: Memory, calls: map<nat, CallPC>, token: string) {
    && (exists r :: 0 <= r < |m.heap| && m.heap[r].token == token)
    && (forall j | j in calls && j < |m.heap| && m.heap[j].token == token :: j in m.verdict)
  }

  /** Every result of the token's jobs is more than `ttl` old at `now`. */
  ghost predicate Outdated(m: Memory, calls: map<nat, CallPC>, token: string, now: int, ttl: int) {
    forall j | j in calls && j < |m.heap| && m.heap[j].token == token && j in m.verdict ::
      Expired(m.verdict[j], now, ttl)
  }

  /** What the sweeper has loaded is of its key, and from its look at a finished job on the result
      of the key's job is written. */
  ghost predicate SweepInv(m: Memory, calls: map<nat, CallPC>, sweeper: SweeperPC, ttl: int) {
    match sweeper
    case Roaming => true
    case Visiting(key, ref, _) => Origin(m, calls, ref, key)
    case Aging(key, ref, _) => Origin(m, calls, ref, key) && Finished(m.heap[ref]) && Decisive(m, calls, key)
    case Evicting(key, now) => Decisive(m, calls, key) && Outdated(m, calls, key, now, ttl)
  }

  lemma DecisiveGrows(m: Memory, calls: map<nat, CallPC>, m': Memory, calls': map<nat, CallPC>, token: string)
    requires Decisive(m, calls, token) && Grows(m, calls, m', calls')
    requires forall j | j in calls :: j < |m.heap|
    requires forall j | j in calls' && j !in calls && j < |m'.heap| ::
      forall r | 0 <= r < |m.heap| :: m.heap[r].token != m'.heap[j].token
    ensures Decisive(m', calls', token)
  {
    var r :| 0 <= r < |m.heap| && m.heap[r].token == token;
    assert m'.heap[r].token == token;
  }

  lemma OutdatedGrows(
    m: Memory, calls: map<nat, CallPC>, m': Memory, calls': map<nat, CallPC>, token: string, now: int, ttl: int)
    requires Decisive(m, calls, token) && Outdated(m, calls, token, now, ttl) && Grows(m, calls, m', calls')
    requires forall j | j in calls :: j < |m.heap|
    requires forall j | j in calls' && j !in calls && j < |m'.heap| ::
      forall r | 0 <= r < |m.heap| :: m.heap[r].token != m'.heap[j].token
    ensures Outdated(m', calls', token, now, ttl)
  {
    var r :| 0 <= r < |m.heap| && m.heap[r].token == token;
    assert m'.heap[r].token == token;
  }

  lemma SweepGrows(
    m: Memory, calls: map<nat, CallPC>, m': Memory, calls': map<nat, CallPC>, sweeper: SweeperPC, ttl: int)
    requires SweepInv(m, calls, sweeper, ttl) && Grows(m, calls, m', calls')
    requires forall j | j in calls :: j < |m.heap|
    requires forall j | j in calls' && j !in calls && j < |m'.heap| ::
      forall r | 0 <= r < |m.heap| :: m.heap[r].token != m'.heap[j].token
    ensures SweepInv(m', calls', sweeper, ttl)
  {
    hide Decisive, Outdated;
    if sweeper.Aging? || sweeper.Evicting? {
      DecisiveGrows(m, calls, m', calls', sweeper.key);
    }
    if sweeper.Evicting? {
      OutdatedGrows(m, calls, m', calls', sweeper.key, sweeper.now, ttl);
    }
  }

  lemma LookFindsDecided(s: State, r: nat, token: string)
    requires JobInv(s) && SnapshotInv(s.memory, s.calls) && Origin(s.memory, s.calls, r, token)
    requires Finished(s.memory.heap[r])
    ensures Decisive(s.memory, s.calls, token)
    ensures forall now, ttl :: Expired(s.memory.heap[r], now, ttl) ==> Outdated(s.memory, s.calls, token, now, ttl)
  {
    CurrentSight(s, r, token);
    var k := if r in s.memory.snapshots then s.memory.snapshots[r] else r;
    forall j | j in s.calls && j < |s.memory.heap| && s.memory.heap[j].token == token
      ensures j in s.memory.verdict && s.memory.verdict[j] == s.memory.heap[r]
    {
      SameToken(s, j, k);
    }
    assert s.memory.heap[r].token == token;
  }

  lemma NewTokens(s: State, a: Action)
    requires Enabled(s, a)
    ensures forall j | j in Do(s, a).calls && j !in s.calls && j < |Do(s, a).memory.heap| ::
      forall r | 0 <= r < |s.memory.heap| :: s.memory.heap[r].token != Do(s, a).memory.heap[j].token
  {
    if a.Call? { CallKeepsRemoved(s, a.j, a.giveUp); }
    if a.Work? { WorkFrame(s, a.worker); }
    if a.Read? { ReadFrame(s, a.reader); }
    hide DoCall, DoWork, DoRead;
  }

  predicate Sweeps(a: Action) {
    a.SweepLoad? || a.SweepLook? || a.SweepAge? || a.SweepDelete?
  }

  lemma SweeperFrame(s: State, a: Action)
    requires Enabled(s, a) && !Sweeps(a)
    ensures Do(s, a).shelf.sweeper == s.shelf.sweeper && Do(s, a).gate.ttl == s.gate.ttl
  {
    if a.Call? { CallFrame(s, a.j, a.giveUp); }
    if a.Work? { WorkFrame(s, a.worker); }
    if a.Call? { SweeperAtCall(s, a.j, a.giveUp); }
    if a.Work? { SweeperAtWork(s, a.worker); }
    if a.Read? { ReadFrame(s, a.reader); }
    hide DoCall, DoWork, DoRead;
  }

  lemma SweeperAtCall(s: State, j: nat, giveUp: bool)
    requires j in s.calls && j < |s.memory.heap| && Running(s.calls[j])
    ensures DoCall(s, j, giveUp).shelf.sweeper == s.shelf.sweeper
  {
  }

  lemma SweeperAtWork(s: State, i: nat)
    requires i < |s.crew.workers| && WorkEnabled(s, s.crew.workers[i])
    ensures DoWork(s, i).shelf.sweeper == s.shelf.sweeper
  {
  }

  lemma SweepKeepsSweep(s: State, a: Action)
    requires JobInv(s) && ShelfInv(s) && SweepInv(s.memory, s.calls, s.shelf.sweeper, s.gate.ttl)
    requires Enabled(s, a) && Sweeps(a)
    ensures SweepInv(Do(s, a).memory, Do(s, a).calls, Do(s, a).shelf.sweeper, Do(s, a).gate.ttl)
  {
    hide JobInv, Decisive, Outdated, Expired, Origin, SnapshotInv, CopyInv, SeenInv, EntryInv, LoadedInv;
    if (a.SweepLook? || a.SweepAge?) && Finished(s.memory.heap[s.shelf.sweeper.ref]) {
      LookFindsDecided(s, s.shelf.sweeper.ref, s.shelf.sweeper.key);
    }
  }

  lemma StepKeepsSweep(s: State, a: Action)
    requires JobInv(s) && ShelfInv(s) && SweepInv(s.memory, s.calls, s.shelf.sweeper, s.gate.ttl) && Enabled(s, a)
    ensures SweepInv(Do(s, a).memory, Do(s, a).calls, Do(s, a).shelf.sweeper, Do(s, a).gate.ttl)
  {
    if Sweeps(a) {
      SweepKeepsSweep(s, a);
    } else {
      SweeperFrame(s, a);
      ShelfParts(s);
      StepGrows(s, a);
      NewTokens(s, a);
      JobsAreObjects(s);
      hide JobInv, ShelfInv, SweepInv, Do, Enabled, Grows;
      SweepGrows(s.memory, s.calls, Do(s, a).memory, Do(s, a).calls, s.shelf.sweeper, s.gate.ttl);
    }
  }

  lemma {:induction false} RunKeepsSweep(tr: seq<State>, k: nat)
    requires Run(tr) && k < |tr|
    ensures SweepInv(tr[k].memory, tr[k].calls, tr[k].shelf.sweeper, tr[k].gate.ttl)
  {
    hide AllInv, JobInv, ShelfInv, BellInv, CountInv, WakeInv, Do, Enabled;
    if k > 0 {
      RunKeepsSweep(tr, k - 1);
      RunKeepsAll(tr, k - 1);
      AllParts(tr[k - 1]);
      assert Next(tr[k - 1], tr[k - 1 + 1]);
      var a :| Enabled(tr[k - 1], a) && tr[k] == Do(tr[k - 1], a);
      StepKeepsSweep(tr[k - 1], a);
    }
  }

  /** However its reads and its delete are interleaved with everything else, the sweeper only
      removes tokens whose job is finished at the moment of the delete, with a recorded time more
      than `ttl` before the sweep. */
  lemma SweeperSparesYoung(tr: seq<State>, k: nat, j: nat)
    requires Run(tr) && k < |tr| && Enabled(tr[k], SweepDelete)
    requires j in tr[k].calls && j < |tr[k].memory.heap|
    requires tr[k].memory.heap[j].token == tr[k].shelf.sweeper.key
    ensures Finished(tr[k].memory.heap[j])
    ensures Expired(tr[k].memory.heap[j], tr[k].shelf.sweeper.now, tr[k].gate.ttl)
  {
    hide AllInv, JobInv, ShelfInv, BellInv, CountInv, WakeInv, Expired;
    RunKeepsSweep(tr, k);
    RunKeepsAll(tr, k);
    AllParts(tr[k]);
    VerdictsStand(tr[k]);
  }

  // A refused job.

  /** `Enqueue` stores the job before it tries to send it, so a job that was refused stays in
      the store, queued for ever, until somebody deletes its token. */
  lemma RefusedStaysQueued(tr: seq<State>, k: nat, j: nat)
    requires Run(tr) && k < |tr| && j in tr[k].calls && tr[k].calls[j].Refused?
    ensures j < |tr[k].memory.heap| && j !in tr[k].line.sent && tr[k].memory.heap[j].status == IN_QUEUE
    ensures var token := tr[k].memory.heap[j].token;
      token in tr[k].shelf.removed || (token in tr[k].shelf.store && tr[k].shelf.store[token] == j)
  {
    hide AllInv;
    RunKeepsAll(tr, k);
    AllParts(tr[k]);
    RefusedIsQueued(tr[k], j);
  }

  lemma RefusedIsQueued(s: State, j: nat)
    requires JobInv(s) && ShelfInv(s) && j in s.calls && s.calls[j].Refused?
    ensures j < |s.memory.heap| && j !in s.line.sent && s.memory.heap[j].status == IN_QUEUE
    ensures var token := s.memory.heap[j].token;
      token in s.shelf.removed || (token in s.shelf.store && s.shelf.store[token] == j)
  {
    OwnedWasSent(s, j);
    var token := s.memory.heap[j].token;
    if token !in s.shelf.removed {
      var r := s.shelf.store[token];
      assert Origin(s.memory, s.calls, r, token);
      if r in s.memory.snapshots {
        VerdictsStand(s);
        SameToken(s, s.memory.snapshots[r], j);
      } else {
        SameToken(s, r, j);
      }
    }
  }
}
