/** No lost wakeup: the check, register, check again, block sequence of `WaitForResult` against
    the store, take, send, close sequence of `SignalCompleted`. */
module ProtocolWakeup {
  import opened Jobs
  import opened Protocol
  import opened ProtocolJobs
  import opened ProtocolStore
  import opened ProtocolBells

  /** No other waiting call for the token overlaps call `w`: none was under way when it began, and
      none has begun since. */
  ghost predicate Sole(readers: seq<Reader>, w: nat)
    requires w < |readers|
  {
    readers[w].clear && forall v | w < v < |readers| && readers[v].token == readers[w].token :: !readers[v].waits
  }

  /** What was over when a call began stays over. */
  ghost predicate ClearInv(readers: seq<Reader>) {
    forall u, w | 0 <= u < w < |readers| && readers[w].clear :: !Waits(readers[u], readers[w].token)
  }

  predicate Waiting(p: ReaderPC) {
    p.SecondLoad? || p.SecondLook? || p.Blocked?
  }

  /** The worker of job `j` has looked for a listener. */
  predicate Past(crew: Crew, j: nat) {
    || j in crew.signalled
    || (j in crew.owner && crew.owner[j] < |crew.workers| && Stage(crew.workers[crew.owner[j]]) >= 12
        && crew.workers[crew.owner[j]].job == j)
  }

  ghost predicate NonePast(m: Memory, calls: map<nat, CallPC>, crew: Crew, token: string) {
    forall j | j in calls && j < |m.heap| && m.heap[j].token == token :: !Past(crew, j)
  }

  /** The waiting call's channel has been taken, or it is registered and either the worker is yet
      to look for it or the second check is yet to find the job finished. */
  ghost predicate Reached(m: Memory, calls: map<nat, CallPC>, crew: Crew, bells: Bells, w: nat)
    requires w < |bells.readers| && Waiting(bells.readers[w].pc)
  {
    var r := bells.readers[w];
    && r.pc.ch < |bells.channels|
    && (|| bells.channels[r.pc.ch].taker.Some?
        || (&& r.token in bells.listeners && bells.listeners[r.token] == r.pc.ch
            && (|| r.pc.SecondLoad?
                || (r.pc.SecondLook? && r.pc.ref < |m.heap| && Finished(m.heap[r.pc.ref]))
                || NonePast(m, calls, crew, r.token))))
  }

  ghost predicate WakeParts(m: Memory, calls: map<nat, CallPC>, crew: Crew, bells: Bells, removed: set<string>) {
    && (forall w | 0 <= w < |bells.readers| && !bells.readers[w].waits ::
          var p := bells.readers[w].pc; p.LastLoad? || p.LastLook? || p.Returned?)
    && (forall w | 0 <= w < |bells.readers| && Waiting(bells.readers[w].pc) && Sole(bells.readers, w)
                && bells.readers[w].token !in removed ::
          Reached(m, calls, crew, bells, w))
  }

  ghost predicate WakeInv(s: State) {
    ClearInv(s.bells.readers) && WakeParts(s.memory, s.calls, s.crew, s.bells, s.shelf.removed)
  }

  /** Nothing the wakeup depends on goes backwards. */
  lemma WakeGrows(s: State, m': Memory, calls': map<nat, CallPC>)
    requires WakeInv(s) && Grows(s.memory, s.calls, m', calls')
    requires LoadedInv(s.memory, s.calls, s.bells.readers)
    requires forall j | j in s.calls :: j < |s.memory.heap|
    requires forall j | j in calls' && j !in s.calls :: j == |s.memory.heap| && !Past(s.crew, j)
    ensures WakeParts(m', calls', s.crew, s.bells, s.shelf.removed)
  {
    forall w | 0 <= w < |s.bells.readers| && Waiting(s.bells.readers[w].pc) && Sole(s.bells.readers, w)
      && s.bells.readers[w].token !in s.shelf.removed
      ensures Reached(m', calls', s.crew, s.bells, w)
    {
      assert Reached(s.memory, s.calls, s.crew, s.bells, w);
    }
  }

  lemma RemovalIsHarmless(
    m: Memory, calls: map<nat, CallPC>, crew: Crew, bells: Bells, removed: set<string>, removed': set<string>)
    requires WakeParts(m, calls, crew, bells, removed) && removed <= removed'
    ensures WakeParts(m, calls, crew, bells, removed')
  {
  }

  /** A change of the crew after which no further job is past its worker's look. */
  lemma CrewIsHarmless(m: Memory, calls: map<nat, CallPC>, crew: Crew, crew': Crew, bells: Bells, removed: set<string>)
    requires WakeParts(m, calls, crew, bells, removed)
    requires forall j | j in calls && Past(crew', j) :: Past(crew, j)
    ensures WakeParts(m, calls, crew', bells, removed)
  {
    forall w | 0 <= w < |bells.readers| && Waiting(bells.readers[w].pc) && Sole(bells.readers, w)
      && bells.readers[w].token !in removed
      ensures Reached(m, calls, crew', bells, w)
    {
      assert Reached(m, calls, crew, bells, w);
    }
  }

  /** The worker looks for a listener: whoever waits alone for this token is now taken. */
  lemma LookTakes(
    m: Memory, calls: map<nat, CallPC>, crew: Crew, crew': Crew, bells: Bells, removed: set<string>, j: nat, i: nat)
    requires WakeParts(m, calls, crew, bells, removed) && ListenersInv(bells) && j < |m.heap|
    requires forall k | k in calls && Past(crew', k) :: k == j || Past(crew, k)
    ensures WakeParts(m, calls, crew', TakeListener(bells, m.heap[j].token, i), removed)
  {
    var bells' := TakeListener(bells, m.heap[j].token, i);
    forall w | 0 <= w < |bells.readers| && Waiting(bells.readers[w].pc) && Sole(bells'.readers, w)
      && bells.readers[w].token !in removed
      ensures Reached(m, calls, crew', bells', w)
    {
      assert Sole(bells.readers, w);
      assert Reached(m, calls, crew, bells, w);
    }
  }

  /** Sending and closing leave the taker of every channel. */
  lemma ChannelsAreHarmless(
    m: Memory, calls: map<nat, CallPC>, crew: Crew, bells: Bells, removed: set<string>, channels: seq<Listener>)
    requires WakeParts(m, calls, crew, bells, removed)
    requires |channels| == |bells.channels|
    requires forall c | 0 <= c < |channels| :: channels[c].taker == bells.channels[c].taker
    ensures WakeParts(m, calls, crew, bells.(channels := channels), removed)
  {
    var bells' := bells.(channels := channels);
    forall w | 0 <= w < |bells.readers| && Waiting(bells.readers[w].pc) && Sole(bells'.readers, w)
      && bells.readers[w].token !in removed
      ensures Reached(m, calls, crew, bells', w)
    {
      assert Sole(bells.readers, w);
      assert Reached(m, calls, crew, bells, w);
    }
  }

  // Steps of the reading calls.

  /** Reader `w`, not yet done, moves on. */
  ghost predicate MovesOn(readers: seq<Reader>, readers': seq<Reader>, w: nat) {
    && w < |readers| == |readers'| && !readers[w].pc.Returned?
    && readers'[w].token == readers[w].token && readers'[w].waits == readers[w].waits
    && readers'[w].clear == readers[w].clear
    && forall v | 0 <= v < |readers| && v != w :: readers'[v] == readers[v]
  }

  lemma ReaderStaysClear(readers: seq<Reader>, readers': seq<Reader>, w: nat)
    requires ClearInv(readers) && MovesOn(readers, readers', w)
    ensures ClearInv(readers')
  {
  }

  /** A reader that moves does not wait for the token of another that is alone. */
  lemma OneWaits(readers: seq<Reader>, readers': seq<Reader>, v: nat, w: nat)
    requires ClearInv(readers) && MovesOn(readers, readers', w) && v < |readers| && v != w && Sole(readers', v)
    ensures Sole(readers, v) && (readers[w].token == readers[v].token ==> !readers[w].waits)
  {
    if w > v {
      assert readers'[w].token == readers[w].token;
    }
  }

  /** Reader `w` moves; the others see the same bells. */
  lemma OthersStayReached(s: State, bells: Bells, w: nat)
    requires WakeInv(s) && w < |s.bells.readers| && !s.bells.readers[w].pc.Returned?
    requires |bells.readers| == |s.bells.readers| && bells.readers[w].token == s.bells.readers[w].token
    requires bells.readers[w].waits == s.bells.readers[w].waits && bells.readers[w].clear == s.bells.readers[w].clear
    requires forall v | 0 <= v < |bells.readers| && v != w :: bells.readers[v] == s.bells.readers[v]
    requires |s.bells.channels| <= |bells.channels|
    requires forall c | 0 <= c < |s.bells.channels| :: bells.channels[c].taker == s.bells.channels[c].taker
    requires forall token |
      token in s.bells.listeners && (token != s.bells.readers[w].token || !s.bells.readers[w].waits) ::
      token in bells.listeners && bells.listeners[token] == s.bells.listeners[token]
    requires !bells.readers[w].waits ==>
      bells.readers[w].pc.LastLoad? || bells.readers[w].pc.LastLook? || bells.readers[w].pc.Returned?
    requires Waiting(bells.readers[w].pc) && Sole(bells.readers, w) && bells.readers[w].token !in s.shelf.removed
      ==> Reached(s.memory, s.calls, s.crew, bells, w)
    ensures WakeParts(s.memory, s.calls, s.crew, bells, s.shelf.removed) && ClearInv(bells.readers)
  {
    assert ClearInv(bells.readers) by {
      ReaderStaysClear(s.bells.readers, bells.readers, w);
    }
    forall v | 0 <= v < |bells.readers| && Waiting(bells.readers[v].pc) && Sole(bells.readers, v)
      && bells.readers[v].token !in s.shelf.removed
      ensures Reached(s.memory, s.calls, s.crew, bells, v)
    {
      if v != w {
        OneWaits(s.bells.readers, bells.readers, v, w);
        assert Reached(s.memory, s.calls, s.crew, s.bells, v);
      }
    }
  }

  /** At the second load: the entry is final if the worker is already past its look. */
  lemma SecondLoadReaches(s: State, w: nat)
    requires JobInv(s) && ShelfInv(s) && WakeInv(s) && w < |s.bells.readers| && s.bells.readers[w].pc.SecondLoad?
    requires Sole(s.bells.readers, w) && s.bells.readers[w].token !in s.shelf.removed
    ensures Reached(s.memory, s.calls, s.crew, DoRead(s, w).bells, w)
  {
    hide JobInv, ShelfInv, WakeInv, ReadSeen, NonePast;
    WaiterReached(s, w);
    EntryAfterPast(s, s.bells.readers[w].token);
  }

  /** Once the worker of a token's job is past its look, the entry is there and final, unless it
      was removed. */
  lemma EntryAfterPast(s: State, token: string)
    requires JobInv(s) && ShelfInv(s) && token !in s.shelf.removed
    ensures NonePast(s.memory, s.calls, s.crew, token)
      || (&& token in s.shelf.store && s.shelf.store[token] < |s.memory.heap|
          && Finished(s.memory.heap[s.shelf.store[token]]))
  {
    if !NonePast(s.memory, s.calls, s.crew, token) {
      var j :| j in s.calls && j < |s.memory.heap| && s.memory.heap[j].token == token && Past(s.crew, j);
      OwnedWasSent(s, j);
      PastIsOwned(s, j);
      hide JobInv;
      assert token in s.shelf.store;
      assert EntryFinal(s.memory, s.shelf.store, j);
      assert s.shelf.store[token] in s.memory.snapshots;
    }
  }

  lemma PastIsOwned(s: State, j: nat)
    requires JobInv(s) && Past(s.crew, j)
    ensures j in s.crew.owner
  {
  }

  /** What a step of reader `w` leaves as it is. */
  lemma ReadMoves(s: State, w: nat)
    requires WakeInv(s) && w < |s.bells.readers| && ReadEnabled(s, s.bells.readers[w].pc)
    ensures var bells := DoRead(s, w).bells;
      var r, r' := s.bells.readers[w], bells.readers[w];
      && |s.bells.channels| <= |bells.channels|
      && (forall c | 0 <= c < |s.bells.channels| :: bells.channels[c].taker == s.bells.channels[c].taker)
      && (forall token | token in s.bells.listeners && (token != r.token || !r.waits) ::
            token in bells.listeners && bells.listeners[token] == s.bells.listeners[token])
      && (!r.waits ==> r'.pc.LastLoad? || r'.pc.LastLook? || r'.pc.Returned?)
  {
    hide Reached, Sole, Finished, ReadSeen, Delivers;
  }

  ghost predicate ReachedAfter(s: State, w: nat)
    requires w < |s.bells.readers| && ReadEnabled(s, s.bells.readers[w].pc) && Waiting(NextRead(s, w))
  {
    Reached(s.memory, s.calls, s.crew, ReadBells(s, w), w)
  }

  lemma ReaderReaches(s: State, w: nat)
    requires JobInv(s) && ShelfInv(s) && WakeInv(s) && w < |s.bells.readers| && ReadEnabled(s, s.bells.readers[w].pc)
    requires Sole(s.bells.readers, w) && s.bells.readers[w].token !in s.shelf.removed
    ensures Waiting(NextRead(s, w)) ==> ReachedAfter(s, w)
  {
    hide JobInv, ShelfInv, Sole, NonePast, ReadSeen, WakeParts, Delivers;
    if s.bells.readers[w].pc.SecondLoad? {
      SecondLoadReaches(s, w);
    } else if s.bells.readers[w].pc.SecondLook? {
      WaiterReached(s, w);
    }
  }

  lemma WaiterReached(s: State, w: nat)
    requires WakeInv(s) && w < |s.bells.readers| && Waiting(s.bells.readers[w].pc)
    requires Sole(s.bells.readers, w) && s.bells.readers[w].token !in s.shelf.removed
    ensures Reached(s.memory, s.calls, s.crew, s.bells, w)
  {
  }

  lemma ReadKeepsWake(s: State, w: nat)
    requires JobInv(s) && ShelfInv(s) && BellInv(s) && WakeInv(s)
    requires w < |s.bells.readers| && ReadEnabled(s, s.bells.readers[w].pc)
    ensures WakeInv(DoRead(s, w))
  {
    hide JobInv, ShelfInv, BellInv, ReadBells, ReadSeen, NextRead, Reached, NonePast, WakeParts;
    ReadFrame(s, w);
    ReadMovesOne(s, w);
    ReadMoves(s, w);
    var bells := DoRead(s, w).bells;
    if Sole(s.bells.readers, w) && s.bells.readers[w].token !in s.shelf.removed {
      ReaderReaches(s, w);
    }
    OthersStayReached(s, bells, w);
  }

  lemma WorkKeepsWake(s: State, i: nat)
    requires JobInv(s) && ShelfInv(s) && BellInv(s) && WakeInv(s)
    requires i < |s.crew.workers| && WorkEnabled(s, s.crew.workers[i])
    ensures WakeInv(DoWork(s, i))
  {
    hide JobInv, ShelfInv, WakeParts;
    var p := s.crew.workers[i];
    var s' := DoWork(s, i);
    WorkFrame(s, i);
    WorkerHolds(s, i);
    JobsAreObjects(s);
    ShelfParts(s);
    WorkGrows(s, i);
    WakeGrows(s, s'.memory, s'.calls);
    PastAfterWork(s, i);
    if p.Published? {
      LookTakes(s.memory, s.calls, s.crew, s'.crew, s.bells, s.shelf.removed, p.job, i);
    } else {
      CrewIsHarmless(s'.memory, s'.calls, s.crew, s'.crew, s.bells, s.shelf.removed);
      ChannelsAreHarmless(s'.memory, s'.calls, s'.crew, s.bells, s.shelf.removed, s'.bells.channels);
    }
    assert s'.shelf.removed == s.shelf.removed;
  }

  lemma ShelfParts(s: State)
    requires ShelfInv(s)
    ensures SnapshotInv(s.memory, s.calls) && LoadedInv(s.memory, s.calls, s.bells.readers)
  {
  }

  lemma PastAdvances(crew: Crew, i: nat, p: WorkerPC)
    requires i < |crew.workers| && Busy(crew.workers[i]) && Busy(p) && p.job == crew.workers[i].job
    requires Stage(p) >= 12 ==> Stage(crew.workers[i]) >= 12 || crew.workers[i].Published?
    ensures forall j | Past(Advance(crew, i, p), j) ::
      Past(crew, j) || (crew.workers[i].Published? && j == crew.workers[i].job)
  {
  }

  lemma PastCompletes(crew: Crew, i: nat)
    requires i < |crew.workers| && (crew.workers[i].Published? || crew.workers[i].Closing?)
    requires crew.workers[i].job in crew.owner && crew.owner[crew.workers[i].job] == i
    ensures forall j | Past(Complete(crew, i, crew.workers[i].job), j) ::
      Past(crew, j) || (crew.workers[i].Published? && j == crew.workers[i].job)
  {
  }

  /** Only the look itself takes a job past it. */
  lemma PastAfterWork(s: State, i: nat)
    requires JobInv(s) && i < |s.crew.workers| && WorkEnabled(s, s.crew.workers[i])
    ensures forall j | Past(DoWork(s, i).crew, j) ::
      Past(s.crew, j) || (s.crew.workers[i].Published? && j == s.crew.workers[i].job)
  {
    hide JobInv, Past;
    WorkerHolds(s, i);
    var p := s.crew.workers[i];
    var p' := DoWork(s, i).crew.workers[i];
    if p'.Idle? {
      PastCompletes(s.crew, i);
    } else {
      PastAdvances(s.crew, i, p');
    }
  }

  lemma PastAfterReceive(s: State, i: nat)
    requires JobInv(s) && Enabled(s, Receive(i))
    ensures forall j | j in s.calls && Past(Do(s, Receive(i)).crew, j) :: Past(s.crew, j)
  {
    HeadIsUnowned(s);
  }

  lemma FreshIsNotPast(s: State, j: nat)
    requires JobInv(s) && j !in s.calls
    ensures !Past(s.crew, j)
  {
    OwnedWasSent(s, j);
  }

  lemma NewReaderIsClear(readers: seq<Reader>, token: string, waits: bool)
    requires ClearInv(readers)
    ensures ClearInv(readers + [NewReader(readers, token, waits)])
  {
    forall u | 0 <= u < |readers| ensures readers[u] in readers { }
  }

  lemma AskKeepsWake(s: State, token: string, waits: bool)
    requires WakeInv(s)
    ensures WakeInv(Do(s, Ask(token, waits)))
  {
    var s' := Do(s, Ask(token, waits));
    NewReaderIsClear(s.bells.readers, token, waits);
    forall w | 0 <= w < |s'.bells.readers| && Waiting(s'.bells.readers[w].pc) && Sole(s'.bells.readers, w)
      && s'.bells.readers[w].token !in s.shelf.removed
      ensures Reached(s.memory, s.calls, s.crew, s'.bells, w)
    {
      assert s'.bells.readers[w] == s.bells.readers[w];
      forall v | w < v < |s.bells.readers| && s.bells.readers[v].token == s.bells.readers[w].token
        ensures !s.bells.readers[v].waits
      {
        assert s'.bells.readers[v] == s.bells.readers[v];
      }
      assert Sole(s.bells.readers, w);
      assert Reached(s.memory, s.calls, s.crew, s.bells, w);
    }
  }

  lemma StepKeepsWake(s: State, a: Action)
    requires Inv(s) && WakeInv(s) && Enabled(s, a)
    ensures WakeInv(Do(s, a))
  {
    hide JobInv, ShelfInv, BellInv, WakeParts, Grows, DoCall, DoWork, DoRead;
    var s' := Do(s, a);
    ShelfParts(s);
    JobsAreObjects(s);
    match a
    case Work(i) => WorkKeepsWake(s, i);
    case Read(w) => ReadKeepsWake(s, w);
    case Call(j, giveUp) =>
      CallFrame(s, j, giveUp);
      CallGrows(s, j, giveUp);
      CallKeepsRemoved(s, j, giveUp);
      WakeGrows(s, s'.memory, s'.calls);
    case Submit(job) =>
      FreshIsNotPast(s, |s.memory.heap|);
      StepGrows(s, a);
      WakeGrows(s, s'.memory, s'.calls);
    case Finish(i, final) =>
      StepGrows(s, a);
      WakeGrows(s, s'.memory, s'.calls);
      CrewIsHarmless(s'.memory, s'.calls, s.crew, s'.crew, s.bells, s.shelf.removed);
    case Receive(i) =>
      PastAfterReceive(s, i);
      CrewIsHarmless(s.memory, s.calls, s.crew, s'.crew, s.bells, s.shelf.removed);
    case Leave(i) => CrewIsHarmless(s.memory, s.calls, s.crew, s'.crew, s.bells, s.shelf.removed);
    case Ask(token, waits) => AskKeepsWake(s, token, waits);
    case GiveUp(w, timer) => BlockedWaits(s, w); OthersStayReached(s, s'.bells, w);
    case Delete(_) => RemovalIsHarmless(s.memory, s.calls, s.crew, s.bells, s.shelf.removed, s'.shelf.removed);
    case SweepDelete => RemovalIsHarmless(s.memory, s.calls, s.crew, s.bells, s.shelf.removed, s'.shelf.removed);
    case _ =>
  }

  lemma BlockedWaits(s: State, w: nat)
    requires WakeInv(s) && w < |s.bells.readers| && s.bells.readers[w].pc.Blocked?
    ensures s.bells.readers[w].waits
  {
  }

  lemma CallKeepsRemoved(s: State, j: nat, giveUp: bool)
    requires j in s.calls && j < |s.memory.heap| && Running(s.calls[j])
    ensures DoCall(s, j, giveUp).shelf.removed == s.shelf.removed
    ensures forall k | k in DoCall(s, j, giveUp).calls :: k in s.calls
  {
  }

  lemma InitWake(s: State)
    requires Init(s)
    ensures WakeInv(s)
  {
  }

  /** The next step of reading call `w` is enabled, and it returns `job`. */
  ghost predicate CanReturn(s: State, w: nat, job: Job) {
    && Enabled(s, Read(w)) && w < |Do(s, Read(w)).bells.readers|
    && Do(s, Read(w)).bells.readers[w].pc == Returned(Got(job))
  }

  /** A call that waits alone for a token that was never removed: once `SignalCompleted` of the
      token's job has returned and the call is blocked in its select, the finished job is already
      in its channel. */
  lemma NoLostWakeup(s: State, w: nat, j: nat)
    requires Inv(s) && WakeInv(s)
    requires w < |s.bells.readers| && s.bells.readers[w].pc.Blocked? && Sole(s.bells.readers, w)
    requires j in s.crew.signalled && j < |s.memory.heap| && s.memory.heap[j].token == s.bells.readers[w].token
    requires s.bells.readers[w].token !in s.shelf.removed
    ensures j in s.memory.verdict && Finished(s.memory.verdict[j]) && CanReturn(s, w, s.memory.verdict[j])
  {
    hide JobInv, ShelfInv, BellInv, WakeInv, Past, Sole, Delivers;
    var c := s.bells.readers[w].pc.ch;
    SignalledIsPast(s, j);
    BlockedIsTaken(s, w, j);
    BlockedHasNotReceived(s, w);
    TakenByNoOne(s, c, j);
    BufferedCopy(s, c, j);
  }

  lemma SignalledIsPast(s: State, j: nat)
    requires JobInv(s) && j in s.crew.signalled
    ensures Past(s.crew, j) && j in s.crew.owner && j in s.calls
  {
    OwnedWasSent(s, j);
  }

  lemma BlockedIsTaken(s: State, w: nat, j: nat)
    requires WakeInv(s) && w < |s.bells.readers| && s.bells.readers[w].pc.Blocked? && Sole(s.bells.readers, w)
    requires s.bells.readers[w].token !in s.shelf.removed
    requires j in s.calls && j < |s.memory.heap| && s.memory.heap[j].token == s.bells.readers[w].token
    requires Past(s.crew, j)
    ensures s.bells.readers[w].pc.ch < |s.bells.channels| && s.bells.channels[s.bells.readers[w].pc.ch].taker.Some?
  {
    hide Past, Sole;
    assert Reached(s.memory, s.calls, s.crew, s.bells, w);
  }

  lemma BlockedHasNotReceived(s: State, w: nat)
    requires BellInv(s) && w < |s.bells.readers| && s.bells.readers[w].pc.Blocked?
    ensures s.bells.readers[w].pc.ch < |s.bells.channels|
    ensures s.bells.channels[s.bells.readers[w].pc.ch].token == s.bells.readers[w].token
    ensures |s.bells.channels[s.bells.readers[w].pc.ch].buffer| == s.bells.channels[s.bells.readers[w].pc.ch].puts
  {
  }

  /** A taken channel of a signalled job's token is with no worker any more. */
  lemma TakenByNoOne(s: State, c: nat, j: nat)
    requires Inv(s) && c < |s.bells.channels| && s.bells.channels[c].taker.Some?
    requires j in s.crew.signalled && j < |s.memory.heap| && s.memory.heap[j].token == s.bells.channels[c].token
    ensures s.bells.channels[c].puts == 1
  {
    OwnedWasSent(s, j);
    var ch := s.bells.channels[c];
    assert ChannelOk(s.memory, s.crew.workers, c, ch);
    var i := ch.taker.value;
    if HoldsChannel(s.crew.workers[i], c) {
      WorkerOwns(s, i);
      WorkerHolds(s, i);
    }
  }

  lemma BufferedCopy(s: State, c: nat, j: nat)
    requires Inv(s) && c < |s.bells.channels| && |s.bells.channels[c].buffer| > 0
    requires j in s.calls && j < |s.memory.heap| && s.memory.heap[j].token == s.bells.channels[c].token
    ensures Delivers(s, c) && j in s.memory.verdict
    ensures s.memory.heap[s.bells.channels[c].buffer[0]] == s.memory.verdict[j] && Finished(s.memory.verdict[j])
  {
    var r := s.bells.channels[c].buffer[0];
    assert ChannelOk(s.memory, s.crew.workers, c, s.bells.channels[c]);
    assert r in s.bells.channels[c].buffer;
    SameToken(s, s.memory.snapshots[r], j);
  }

  lemma SameToken(s: State, j: nat, k: nat)
    requires JobInv(s) && j in s.calls && k in s.calls && j < |s.memory.heap| && k < |s.memory.heap|
    requires s.memory.heap[j].token == s.memory.heap[k].token
    ensures j == k
  {
  }
}
