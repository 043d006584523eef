/** What a reading call makes of what it finds, over runs: a stored job is not passed over, every
    answer was seen, and no listener is left behind. */
module ProtocolReplies {
  import opened Jobs
  import opened Protocol
  import opened ProtocolJobs
  import opened ProtocolStore
  import opened ProtocolBells
  import opened ProtocolCounters
  import opened ProtocolWakeup
  import opened ProtocolRuns
  import opened ProtocolLimits

  /** How an action moves one reader. */
  lemma ReaderMoves(s: State, a: Action, w: nat)
    requires Enabled(s, a) && w < |s.bells.readers|
    ensures w < |Do(s, a).bells.readers|
    ensures var r, r' := s.bells.readers[w], Do(s, a).bells.readers[w];
      || r' == r
      || (a == Read(w) && r' == r.(pc := NextRead(s, w)))
      || (a.GiveUp? && a.reader == w && r.pc.Blocked? && r' == r.(pc := GivenUp(r.pc.ch, a.timer)))
    ensures a == Read(w) ==> Do(s, a).bells.readers[w] == s.bells.readers[w].(pc := NextRead(s, w))
  {
    hide DoCall, DoWork, DoRead, NextRead;
    if a.Call? { CallFrame(s, a.j, a.giveUp); }
    if a.Work? { WorkFrame(s, a.worker); }
    if a.Read? { ReadMovesOne(s, a.reader); }
  }

  lemma NewReaders(s: State, a: Action)
    requires Enabled(s, a)
    ensures |s.bells.readers| <= |Do(s, a).bells.readers|
    ensures forall w | |s.bells.readers| <= w < |Do(s, a).bells.readers| ::
      Do(s, a).bells.readers[w].pc == FirstLoad || Do(s, a).bells.readers[w].pc == LastLoad
  {
    hide DoCall, DoWork, DoRead, NextRead;
    if a.Call? { CallFrame(s, a.j, a.giveUp); }
    if a.Work? { WorkFrame(s, a.worker); }
    if a.Read? { ReadMovesOne(s, a.reader); }
  }

  // Why a call has no job to return.

  /** A call returns that there is no job only after a last load that found none. */
  lemma {:induction false} MissingMeansAbsent(tr: seq<State>, k: nat, w: nat) returns (l: nat)
    requires Run(tr) && k < |tr| && w < |tr[k].bells.readers| && tr[k].bells.readers[w].pc == Returned(Missing)
    ensures l < k && w < |tr[l].bells.readers| && tr[l].bells.readers[w].pc == LastLoad
    ensures tr[l].bells.readers[w].token !in tr[l].shelf.store
  {
    hide Do, Enabled;
    if k > 0 {
      assert Next(tr[k - 1], tr[k - 1 + 1]);
      var a :| Enabled(tr[k - 1], a) && tr[k] == Do(tr[k - 1], a);
      NewReaders(tr[k - 1], a);
      if w < |tr[k - 1].bells.readers| {
        ReaderMoves(tr[k - 1], a, w);
        if tr[k - 1].bells.readers[w].pc == Returned(Missing) {
          l := MissingMeansAbsent(tr, k - 1, w);
        } else {
          l := k - 1;
          ReadIsEnabled(tr[l], a, w);
        }
      }
    }
  }

  lemma ReadIsEnabled(s: State, a: Action, w: nat)
    requires Enabled(s, a) && w < |s.bells.readers|
    ensures a == Read(w) ==> ReadEnabled(s, s.bells.readers[w].pc)
  {
  }

  /** A call returns the context's error only after its context ended while it was blocked. */
  lemma {:induction false} CancelledMeansContext(tr: seq<State>, k: nat, w: nat) returns (l: nat)
    requires Run(tr) && k < |tr| && w < |tr[k].bells.readers| && tr[k].bells.readers[w].pc == Returned(Cancelled)
    ensures l < k && w < |tr[l].bells.readers| && tr[l].bells.readers[w].pc.GivenUp? && !tr[l].bells.readers[w].pc.timer
  {
    hide Do, Enabled;
    if k > 0 {
      assert Next(tr[k - 1], tr[k - 1 + 1]);
      var a :| Enabled(tr[k - 1], a) && tr[k] == Do(tr[k - 1], a);
      NewReaders(tr[k - 1], a);
      if w < |tr[k - 1].bells.readers| {
        ReaderMoves(tr[k - 1], a, w);
        if tr[k - 1].bells.readers[w].pc == Returned(Cancelled) {
          l := CancelledMeansContext(tr, k - 1, w);
        } else {
          l := k - 1;
          ReadIsEnabled(tr[l], a, w);
        }
      }
    }
  }

  // A finished job is returned at once.

  /** The token's entry is there, and finished. */
  predicate Ready(s: State, token: string) {
    && token in s.shelf.store && s.shelf.store[token] < |s.memory.heap|
    && Finished(s.memory.heap[s.shelf.store[token]])
  }

  /** The reader has registered nothing, and is on its way to a finished job, or has returned it. */
  predicate Straight(s: State, w: nat)
    requires w < |s.bells.readers|
  {
    match s.bells.readers[w].pc
    case FirstLoad => true
    case LastLoad => true
    case FirstLook(r) => r < |s.memory.heap| && Finished(s.memory.heap[r])
    case LastLook(r) => r < |s.memory.heap| && Finished(s.memory.heap[r])
    case Returned(reply) => reply.Got? && Finished(reply.job)
    case _ => false
  }

  lemma FinishedStays(s: State, a: Action, r: nat)
    requires JobInv(s) && ShelfInv(s) && Enabled(s, a) && r < |s.memory.heap| && Finished(s.memory.heap[r])
    requires exists token :: Origin(s.memory, s.calls, r, token)
    ensures r < |Do(s, a).memory.heap| && Finished(Do(s, a).memory.heap[r])
  {
    ShelfParts(s);
    StepGrows(s, a);
    hide JobInv, ShelfInv, Do, Enabled;
  }

  lemma StraightOn(s: State, a: Action, w: nat)
    requires JobInv(s) && ShelfInv(s) && Enabled(s, a) && w < |s.bells.readers|
    requires Straight(s, w) && Ready(s, s.bells.readers[w].token)
    ensures w < |Do(s, a).bells.readers| && Do(s, a).bells.readers[w].token == s.bells.readers[w].token
    ensures Straight(Do(s, a), w)
  {
    hide JobInv, ShelfInv, DoCall, DoWork, DoRead, Grows, Finished;
    ReaderMoves(s, a, w);
    var p := s.bells.readers[w].pc;
    ReadIsEnabled(s, a, w);
    if Looking(p) {
      LookedOrigin(s, w);
      FinishedStays(s, a, p.ref);
    }
    if a == Read(w) {
      ReadFrame(s, w);
    }
  }

  lemma LookedOrigin(s: State, w: nat)
    requires ShelfInv(s) && w < |s.bells.readers| && Looking(s.bells.readers[w].pc)
    ensures Origin(s.memory, s.calls, s.bells.readers[w].pc.ref, s.bells.readers[w].token)
  {
  }

  /** A call that finds a finished job in the store all the while it lasts goes straight to it: it
      never registers and never blocks, and what it returns is a finished job. */
  lemma {:induction false} ReadyIsReturned(tr: seq<State>, k: nat, l: nat, w: nat)
    requires Run(tr) && k <= l < |tr| && w < |tr[k].bells.readers|
    requires tr[k].bells.readers[w].pc == FirstLoad || tr[k].bells.readers[w].pc == LastLoad
    requires forall i | k <= i < l :: Ready(tr[i], tr[k].bells.readers[w].token)
    ensures w < |tr[l].bells.readers| && tr[l].bells.readers[w].token == tr[k].bells.readers[w].token
    ensures Straight(tr[l], w)
  {
    hide AllInv, JobInv, ShelfInv, BellInv, CountInv, WakeInv, Do, Enabled, Ready;
    if k < l {
      ReadyIsReturned(tr, k, l - 1, w);
      RunKeepsAll(tr, l - 1);
      AllParts(tr[l - 1]);
      assert Next(tr[l - 1], tr[l - 1 + 1]);
      var a :| Enabled(tr[l - 1], a) && tr[l] == Do(tr[l - 1], a);
      StraightOn(tr[l - 1], a, w);
    }
  }

  // Every answer was seen.

  ghost predicate WasSeen(seen: seq<Sight>, job: Job) {
    exists k :: 0 <= k < |seen| && seen[k].value == job
  }

  predicate Holding(r: Reader, job: Job) {
    r.pc == Returned(Got(job)) || (r.pc.Leaving? && r.pc.found == job)
  }

  ghost predicate SeenReplies(readers: seq<Reader>, seen: seq<Sight>) {
    forall w, job | 0 <= w < |readers| && Holding(readers[w], job) :: WasSeen(seen, job)
  }

  lemma SeenGrows(s: State, a: Action)
    requires Enabled(s, a)
    ensures s.seen <= Do(s, a).seen
  {
    hide DoCall, DoWork, ReadBells;
    if a.Call? { CallFrame(s, a.j, a.giveUp); }
    if a.Work? { WorkFrame(s, a.worker); }
  }

  /** A reader that now holds a job has just handed it on, or seen it. */
  lemma HoldingIsSeen(s: State, w: nat, job: Job)
    requires w < |s.bells.readers| && ReadEnabled(s, s.bells.readers[w].pc)
    requires Holding(s.bells.readers[w].(pc := NextRead(s, w)), job) && !Holding(s.bells.readers[w], job)
    ensures WasSeen(DoRead(s, w).seen, job)
  {
    hide ReadBells, Finished, Delivers;
    var n := |s.seen|;
    if |DoRead(s, w).seen| > n {
      assert DoRead(s, w).seen[n].value == job;
    }
  }

  lemma StepKeepsSeenReplies(s: State, a: Action)
    requires Enabled(s, a) && SeenReplies(s.bells.readers, s.seen)
    ensures SeenReplies(Do(s, a).bells.readers, Do(s, a).seen)
  {
    hide DoCall, DoWork, DoRead, NextRead, WasSeen;
    SeenGrows(s, a);
    NewReaders(s, a);
    var s' := Do(s, a);
    forall w, job | 0 <= w < |s'.bells.readers| && Holding(s'.bells.readers[w], job)
      ensures WasSeen(s'.seen, job)
    {
      if w < |s.bells.readers| {
        ReaderMoves(s, a, w);
        if Holding(s.bells.readers[w], job) {
          SeenStays(s.seen, s'.seen, job);
        } else {
          ReadIsEnabled(s, a, w);
          HoldingIsSeen(s, w, job);
        }
      }
    }
  }

  lemma SeenStays(seen: seq<Sight>, seen': seq<Sight>, job: Job)
    requires WasSeen(seen, job) && seen <= seen'
    ensures WasSeen(seen', job)
  {
    var k :| 0 <= k < |seen| && seen[k].value == job;
    assert seen'[k] == seen[k];
  }

  /** Whatever job a call has returned is among the snapshots that were handed out, so all that is
      known of those holds of it. */
  lemma {:induction false} RepliesAreSeen(tr: seq<State>, k: nat)
    requires Run(tr) && k < |tr|
    ensures SeenReplies(tr[k].bells.readers, tr[k].seen)
  {
    hide Do, Enabled;
    if k > 0 {
      RepliesAreSeen(tr, k - 1);
      assert Next(tr[k - 1], tr[k - 1 + 1]);
      var a :| Enabled(tr[k - 1], a) && tr[k] == Do(tr[k - 1], a);
      StepKeepsSeenReplies(tr[k - 1], a);
    }
  }

  /** An answer is a finished job with its complete result, or an unfinished one without any. */
  lemma RepliesAreWhole(tr: seq<State>, k: nat, w: nat, job: Job)
    requires Run(tr) && k < |tr| && w < |tr[k].bells.readers| && tr[k].bells.readers[w].pc == Returned(Got(job))
    ensures if Finished(job) then job in tr[k].memory.verdict.Values else job.output == NO_OUTPUT
  {
    hide Run, Init, Next;
    RepliesAreSeen(tr, k);
    assert Holding(tr[k].bells.readers[w], job);
    assert WasSeen(tr[k].seen, job);
    var i :| 0 <= i < |tr[k].seen| && tr[k].seen[i].value == job;
    SnapshotsAreWhole(tr, k, i);
  }

  // No listener is left behind.

  /** A registered channel belongs to a call that is still at it. */
  ghost predicate ListenersOwned(bells: Bells) {
    forall token | token in bells.listeners ::
      var c := bells.listeners[token];
      && c < |bells.channels| && bells.channels[c].owner < |bells.readers|
      && HasChannel(bells.readers[bells.channels[c].owner].pc) && bells.readers[bells.channels[c].owner].pc.ch == c
  }

  lemma MoveOwned(bells: Bells, w: nat, p: ReaderPC)
    requires ListenersOwned(bells) && w < |bells.readers|
    requires HasChannel(bells.readers[w].pc) ==> HasChannel(p) && p.ch == bells.readers[w].pc.ch
    ensures ListenersOwned(Move(bells, w, p))
  {
  }

  lemma RegisterOwned(bells: Bells, w: nat)
    requires ListenersOwned(bells) && w < |bells.readers| && bells.readers[w].pc.Registering?
    ensures ListenersOwned(Register(bells, w, SecondLoad(|bells.channels|)))
  {
  }

  lemma UnregisterOwned(bells: Bells, w: nat, p: ReaderPC)
    requires ListenersOwned(bells) && ListenersInv(bells) && WaitersInv(bells.readers, bells.channels)
    requires w < |bells.readers|
    ensures ListenersOwned(Unregister(bells, w, p))
  {
  }

  lemma WakeOwned(s: State, w: nat, c: nat, p: ReaderPC)
    requires ListenersOwned(s.bells) && w < |s.bells.readers| && s.bells.readers[w].pc == Blocked(c)
    requires c < |s.bells.channels| && forall token | token in s.bells.listeners :: s.bells.listeners[token] != c
    ensures ListenersOwned(Wake(s, w, c, p))
  {
  }

  lemma BellLists(s: State)
    requires BellInv(s)
    ensures ListenersInv(s.bells) && WaitersInv(s.bells.readers, s.bells.channels)
  {
  }

  lemma ReadKeepsOwned(s: State, w: nat)
    requires BellInv(s) && ListenersOwned(s.bells) && w < |s.bells.readers| && ReadEnabled(s, s.bells.readers[w].pc)
    ensures ListenersOwned(DoRead(s, w).bells)
  {
    hide ReadSeen, Finished, BellInv, ListenersOwned, ListenersInv, WaitersInv, Delivers;
    BellLists(s);
    var p := s.bells.readers[w].pc;
    if p.Registering? {
      RegisterOwned(s.bells, w);
    } else if p.Leaving? || p.GivenUp? {
      UnregisterOwned(s.bells, w, NextRead(s, w));
    } else if p.Blocked? {
      BlockedWasTaken(s, w);
      WakeOwned(s, w, p.ch, NextRead(s, w));
    } else {
      MoveOwned(s.bells, w, NextRead(s, w));
    }
  }

  lemma BlockedWasTaken(s: State, w: nat)
    requires BellInv(s) && w < |s.bells.readers| && s.bells.readers[w].pc.Blocked?
    requires ReadEnabled(s, s.bells.readers[w].pc)
    ensures forall token | token in s.bells.listeners :: s.bells.listeners[token] != s.bells.readers[w].pc.ch
  {
    WokenWasTaken(s, w);
  }

  lemma WorkKeepsOwned(s: State, i: nat)
    requires ListenersOwned(s.bells) && i < |s.crew.workers| && WorkEnabled(s, s.crew.workers[i])
    ensures ListenersOwned(DoWork(s, i).bells)
  {
    WorkFrame(s, i);
    var p := s.crew.workers[i];
    if !p.Published? && !p.Notifying? && !p.Closing? {
      assert DoWork(s, i).bells == s.bells;
    }
  }

  lemma StepKeepsOwned(s: State, a: Action)
    requires BellInv(s) && ListenersOwned(s.bells) && Enabled(s, a)
    ensures ListenersOwned(Do(s, a).bells)
  {
    hide BellInv, DoCall, DoWork, DoRead;
    if a.Call? { CallFrame(s, a.j, a.giveUp); }
    if a.Work? { WorkKeepsOwned(s, a.worker); }
    if a.Read? { ReadKeepsOwned(s, a.reader); }
  }

  /** A call that has returned, or given up for good, leaves no listener registered. */
  lemma {:induction false} NoListenerLeaks(tr: seq<State>, k: nat)
    requires Run(tr) && k < |tr|
    ensures ListenersOwned(tr[k].bells)
  {
    hide AllInv, JobInv, ShelfInv, BellInv, CountInv, WakeInv, Do, Enabled;
    if k > 0 {
      NoListenerLeaks(tr, k - 1);
      RunKeepsAll(tr, k - 1);
      AllParts(tr[k - 1]);
      assert Next(tr[k - 1], tr[k - 1 + 1]);
      var a :| Enabled(tr[k - 1], a) && tr[k] == Do(tr[k - 1], a);
      StepKeepsOwned(tr[k - 1], a);
    }
  }
}
