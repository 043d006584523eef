/** What every atomic operation keeps about the token-to-job map and about the snapshots that
    are handed out: a final status is only ever seen together with its complete result. */
module ProtocolStore {
  import opened Jobs
  import opened Protocol
  import opened ProtocolJobs

  /** The call has stored its job under the token. */
  predicate Stored(c: CallPC) {
    c.Sending? || c.Counting? || c.Admitted? || c.Refused? || c.Panicked?
  }

  /** `r` is a job of token `token` or a snapshot of one. */
  predicate Origin(m: Memory, calls: map<nat, CallPC>, r: nat, token: string) {
    && r < |m.heap| && m.heap[r].token == token
    && (r in m.snapshots || (r in calls && Stored(calls[r])))
  }

  /** Snapshot objects are apart from the jobs, and equal to the finished job they copy. */
  ghost predicate SnapshotInv(m: Memory, calls: map<nat, CallPC>) {
    && (forall r | r in m.snapshots ::
          && r < |m.heap| && r !in calls
          && m.snapshots[r] in calls && Stored(calls[m.snapshots[r]])
          && Decided(m, m.snapshots[r]) && m.heap[r] == m.heap[m.snapshots[r]])
    && (forall j | j in m.verdict :: Decided(m, j) && j in calls && Stored(calls[j]))
  }

  /** A worker that has taken its snapshot holds a snapshot of its own job. */
  ghost predicate CopyInv(m: Memory, workers: seq<WorkerPC>) {
    forall i | 0 <= i < |workers| && (workers[i].Snapped? || workers[i].Published? || workers[i].Notifying?) ::
      workers[i].snap in m.snapshots && m.snapshots[workers[i].snap] == workers[i].job
  }

  ghost predicate StoreInv(m: Memory, calls: map<nat, CallPC>, store: map<string, nat>) {
    forall token | token in store :: Origin(m, calls, store[token], token)
  }

  predicate Looking(p: ReaderPC) {
    p.FirstLook? || p.SecondLook? || p.LastLook?
  }

  /** What a reading call has loaded belongs to its token. */
  ghost predicate LoadedInv(m: Memory, calls: map<nat, CallPC>, readers: seq<Reader>) {
    forall w | 0 <= w < |readers| && Looking(readers[w].pc) ::
      Origin(m, calls, readers[w].pc.ref, readers[w].token)
  }

  /** What has been seen of a job: never ahead of the job, final only with the final value. */
  predicate SightOk(m: Memory, calls: map<nat, CallPC>, o: Sight) {
    && o.job in calls && Stored(calls[o.job]) && o.job < |m.heap|
    && o.value.token == m.heap[o.job].token
    && Rank(o.value) <= Rank(m.heap[o.job])
    && (Finished(o.value) ==> o.job in m.verdict && o.value == m.verdict[o.job])
    && (!Finished(o.value) ==> o.value.output == NO_OUTPUT)
  }

  ghost predicate SeenInv(m: Memory, calls: map<nat, CallPC>, seen: seq<Sight>) {
    && (forall k | 0 <= k < |seen| :: SightOk(m, calls, seen[k]))
    && (forall k, l | 0 <= k < l < |seen| && seen[k].job == seen[l].job :: Rank(seen[k].value) <= Rank(seen[l].value))
  }

  /** If the token of job `j` has an entry, it is a final snapshot. */
  predicate EntryFinal(m: Memory, store: map<string, nat>, j: nat) {
    j < |m.heap| && m.heap[j].token in store ==> store[m.heap[j].token] in m.snapshots
  }

  /** Nobody but deleters and the sweeper takes an entry away, and once the final snapshot is
      stored nothing else is stored over it. */
  ghost predicate EntryInv(m: Memory, calls: map<nat, CallPC>, crew: Crew, shelf: Shelf) {
    && (forall j | j in calls && Stored(calls[j]) && j < |m.heap| ::
          m.heap[j].token in shelf.store || m.heap[j].token in shelf.removed)
    && (forall j | j in crew.signalled :: EntryFinal(m, shelf.store, j))
    && (forall i | 0 <= i < |crew.workers| && Stage(crew.workers[i]) >= 11 ::
          EntryFinal(m, shelf.store, crew.workers[i].job))
  }

  ghost predicate ShelfInv(s: State) {
    && SnapshotInv(s.memory, s.calls)
    && CopyInv(s.memory, s.crew.workers)
    && StoreInv(s.memory, s.calls, s.shelf.store)
    && LoadedInv(s.memory, s.calls, s.bells.readers)
    && SeenInv(s.memory, s.calls, s.seen)
    && EntryInv(s.memory, s.calls, s.crew, s.shelf)
  }

  /** How the objects may change: only forward, and never after the final write. */
  ghost predicate Grows(m: Memory, calls: map<nat, CallPC>, m': Memory, calls': map<nat, CallPC>) {
    && |m.heap| <= |m'.heap|
    && (forall r | 0 <= r < |m.heap| :: m'.heap[r].token == m.heap[r].token)
    && (forall j | j in calls && Stored(calls[j]) ::
          && j in calls' && Stored(calls'[j])
          && (j < |m.heap| ==> Rank(m.heap[j]) <= Rank(m'.heap[j])))
    && (forall r | r in m.snapshots ::
          && r in m'.snapshots && m'.snapshots[r] == m.snapshots[r]
          && r < |m.heap| && m'.heap[r] == m.heap[r])
    && (forall j | j in m.verdict :: j in m'.verdict && m'.verdict[j] == m.verdict[j])
  }

  lemma SightsGrow(m: Memory, calls: map<nat, CallPC>, m': Memory, calls': map<nat, CallPC>, seen: seq<Sight>)
    requires Grows(m, calls, m', calls') && SeenInv(m, calls, seen)
    ensures SeenInv(m', calls', seen)
  {
  }

  lemma StoreGrows(m: Memory, calls: map<nat, CallPC>, m': Memory, calls': map<nat, CallPC>, store: map<string, nat>)
    requires Grows(m, calls, m', calls') && StoreInv(m, calls, store)
    ensures StoreInv(m', calls', store)
  {
  }

  lemma LoadedGrows(m: Memory, calls: map<nat, CallPC>, m': Memory, calls': map<nat, CallPC>, readers: seq<Reader>)
    requires Grows(m, calls, m', calls') && LoadedInv(m, calls, readers)
    ensures LoadedInv(m', calls', readers)
  {
  }

  lemma VerdictsStand(s: State)
    requires JobInv(s)
    ensures forall j | j in s.memory.verdict ::
      Decided(s.memory, j) && j in s.crew.owner && j in s.calls && Accepted(s.calls[j])
  {
    forall j | j in s.memory.verdict
      ensures Decided(s.memory, j) && j in s.crew.owner && j in s.calls && Accepted(s.calls[j])
    {
      OwnedWasSent(s, j);
      if j !in s.crew.signalled { HoldsNow(s, s.crew.owner[j]); }
    }
  }

  /** Writing into a job that is not yet decided, forwards. */
  lemma WriteGrows(s: State, j: nat, job: Job, verdict: map<nat, Job>, calls: map<nat, CallPC>)
    requires SnapshotInv(s.memory, s.calls)
    requires j in s.calls && j < |s.memory.heap| && j !in s.memory.verdict && job.token == s.memory.heap[j].token
    requires Stored(s.calls[j]) ==> Rank(s.memory.heap[j]) <= Rank(job)
    requires verdict == s.memory.verdict || verdict == s.memory.verdict[j := job]
    requires forall k | k in s.calls :: k in calls && (Stored(s.calls[k]) ==> Stored(calls[k]))
    ensures Grows(s.memory, s.calls, Memory(s.memory.heap[j := job], verdict, s.memory.snapshots), calls)
  {
  }

  lemma CallsGrow(s: State, calls: map<nat, CallPC>)
    requires SnapshotInv(s.memory, s.calls)
    requires forall k | k in s.calls :: k in calls && (Stored(s.calls[k]) ==> Stored(calls[k]))
    ensures Grows(s.memory, s.calls, s.memory, calls)
  {
  }

  lemma AllocateGrows(s: State, job: Job, snapshots: map<nat, nat>, calls: map<nat, CallPC>)
    requires SnapshotInv(s.memory, s.calls) && forall j | j in s.calls :: j < |s.memory.heap|
    requires forall r | r in s.memory.snapshots :: r in snapshots && snapshots[r] == s.memory.snapshots[r]
    requires forall k | k in s.calls :: k in calls && (Stored(s.calls[k]) ==> Stored(calls[k]))
    ensures Grows(s.memory, s.calls, Memory(s.memory.heap + [job], s.memory.verdict, snapshots), calls)
  {
  }

  lemma StepGrows(s: State, a: Action)
    requires JobInv(s) && SnapshotInv(s.memory, s.calls) && Enabled(s, a)
    ensures var s' := Do(s, a); Grows(s.memory, s.calls, s'.memory, s'.calls)
  {
    hide JobInv, SnapshotInv, Grows, DoCall, DoWork, Stored;
    match a
    case Submit(job) =>
      JobsAreObjects(s);
      AllocateGrows(s, job, s.memory.snapshots, s.calls[|s.memory.heap| := Checking]);
    case Call(j, giveUp) => CallGrows(s, j, giveUp);
    case Finish(i, final) => FinishGrows(s, i, final);
    case Work(i) => WorkGrows(s, i);
    case Read(w) =>
      ReadFrame(s, w);
      CallsGrow(s, s.calls);
    case _ => CallsGrow(s, s.calls);
  }

  lemma FinishGrows(s: State, i: nat, final: Job)
    requires JobInv(s) && SnapshotInv(s.memory, s.calls) && Enabled(s, Finish(i, final))
    ensures var s' := Do(s, Finish(i, final)); Grows(s.memory, s.calls, s'.memory, s'.calls)
  {
    hide SnapshotInv;
    HoldsNow(s, i);
    OwnedWasSent(s, s.crew.workers[i].job);
    WriteGrows(s, s.crew.workers[i].job, final, s.memory.verdict[s.crew.workers[i].job := final], s.calls);
  }

  lemma CallGrows(s: State, j: nat, giveUp: bool)
    requires JobInv(s) && SnapshotInv(s.memory, s.calls)
    requires j in s.calls && j < |s.memory.heap| && Running(s.calls[j])
    ensures var s' := DoCall(s, j, giveUp); Grows(s.memory, s.calls, s'.memory, s'.calls)
  {
    OwnedWasSent(s, j);
    if s.calls[j].Setting? {
      WriteGrows(s, j, s.memory.heap[j].(status := IN_QUEUE), s.memory.verdict, s.calls[j := Storing]);
    } else {
      CallsGrow(s, DoCall(s, j, giveUp).calls);
    }
  }

  lemma WorkGrows(s: State, i: nat)
    requires JobInv(s) && SnapshotInv(s.memory, s.calls) && i < |s.crew.workers| && WorkEnabled(s, s.crew.workers[i])
    ensures var s' := DoWork(s, i); Grows(s.memory, s.calls, s'.memory, s'.calls)
  {
    var j := s.crew.workers[i].job;
    HoldsNow(s, i);
    OwnedWasSent(s, j);
    if s.crew.workers[i].Holding? {
      WriteGrows(s, j, s.memory.heap[j].(status := PROCESSING), s.memory.verdict, s.calls);
    } else if s.crew.workers[i].Tallied? {
      AllocateGrows(s, s.memory.heap[j], s.memory.snapshots[|s.memory.heap| := j], s.calls);
    } else {
      CallsGrow(s, s.calls);
    }
  }

  // The parts of ShelfInv, one after the other.

  lemma SnapshotsGrow(m: Memory, calls: map<nat, CallPC>, m': Memory, calls': map<nat, CallPC>)
    requires Grows(m, calls, m', calls') && SnapshotInv(m, calls)
    requires forall j | j in m'.verdict :: Decided(m', j) && j in calls' && Stored(calls'[j])
    requires forall j | j in calls' && j !in calls :: j == |m.heap|
    requires forall r | r in m'.snapshots && r !in m.snapshots ::
      && r == |m.heap| && |m'.heap| == r + 1 && r !in calls'
      && m'.snapshots[r] in m'.verdict && m'.snapshots[r] < r && m'.heap[r] == m'.heap[m'.snapshots[r]]
    ensures SnapshotInv(m', calls')
  {
  }

  lemma StepKeepsSnapshots(s: State, a: Action)
    requires JobInv(s) && SnapshotInv(s.memory, s.calls) && Enabled(s, a)
    requires Grows(s.memory, s.calls, Do(s, a).memory, Do(s, a).calls)
    ensures SnapshotInv(Do(s, a).memory, Do(s, a).calls)
  {
    var s' := Do(s, a);
    StepKeepsJobs(s, a);
    VerdictsStand(s');
    NewSnapshots(s, a);
    NewCalls(s, a);
    JobsAreObjects(s);
    hide JobInv, Enabled;
    SnapshotsGrow(s.memory, s.calls, s'.memory, s'.calls);
  }

  lemma JobsAreObjects(s: State)
    requires JobInv(s)
    ensures forall j | j in s.calls :: j < |s.memory.heap|
  {
  }

  /** A snapshot object is made in one place only, of a decided job. */
  lemma NewSnapshots(s: State, a: Action)
    requires JobInv(s) && Enabled(s, a)
    ensures forall r | r in Do(s, a).memory.snapshots && r !in s.memory.snapshots ::
      var m := Do(s, a).memory;
      && r == |s.memory.heap| && |m.heap| == r + 1
      && m.snapshots[r] in s.memory.verdict && m.snapshots[r] < r && m.heap[r] == m.heap[m.snapshots[r]]
      && Do(s, a).calls == s.calls
  {
    hide JobInv;
    if a.Work? {
      HoldsNow(s, a.worker);
      match s.crew.workers[a.worker]
      case Tallied(_) =>
      case Holding(_) =>
      case _ =>
    }
    if a.Call? && s.calls[a.j].Setting? { }
  }

  lemma NewCalls(s: State, a: Action)
    requires Enabled(s, a)
    ensures forall j | j in Do(s, a).calls && j !in s.calls :: j == |s.memory.heap|
  {
    if a.Call? {
      match s.calls[a.j] case Sending => case _ =>
    }
  }

  // What the three kinds of step leave alone.

  lemma CallFrame(s: State, j: nat, giveUp: bool)
    requires j in s.calls && j < |s.memory.heap| && Running(s.calls[j])
    ensures var s' := DoCall(s, j, giveUp);
      s'.crew == s.crew && s'.bells == s.bells && s'.seen == s.seen && s'.gate == s.gate
  {
  }

  lemma WorkFrame(s: State, i: nat)
    requires i < |s.crew.workers| && WorkEnabled(s, s.crew.workers[i])
    ensures var s' := DoWork(s, i);
      s'.calls == s.calls && s'.line == s.line && s'.gate == s.gate && s'.seen == s.seen
      && |s'.crew.workers| == |s.crew.workers| && s'.crew.workers == s.crew.workers[i := s'.crew.workers[i]]
      && s'.bells.readers == s.bells.readers
  {
  }

  lemma ReadFrame(s: State, w: nat)
    requires w < |s.bells.readers| && ReadEnabled(s, s.bells.readers[w].pc)
    ensures var s' := DoRead(s, w);
      s'.calls == s.calls && s'.line == s.line && s'.gate == s.gate && s'.crew == s.crew
      && s'.memory == s.memory && s'.shelf == s.shelf && s'.stats == s.stats
  {
    hide ReadBells, ReadSeen;
  }

  /** A step of a reader changes its own position and no more of the readers. */
  lemma ReadMovesOne(s: State, w: nat)
    requires w < |s.bells.readers| && ReadEnabled(s, s.bells.readers[w].pc)
    ensures DoRead(s, w).bells.readers == s.bells.readers[w := s.bells.readers[w].(pc := NextRead(s, w))]
  {
    hide NextRead, ReadSeen;
  }

  lemma WorkKeepsCopies(s: State, i: nat)
    requires CopyInv(s.memory, s.crew.workers) && i < |s.crew.workers| && WorkEnabled(s, s.crew.workers[i])
    requires var m := DoWork(s, i).memory; forall r | r in s.memory.snapshots ::
      r in m.snapshots && m.snapshots[r] == s.memory.snapshots[r]
    ensures CopyInv(DoWork(s, i).memory, DoWork(s, i).crew.workers)
  {
    WorkFrame(s, i);
    var p := DoWork(s, i).crew.workers[i];
    var stage := Stage(s.crew.workers[i]);
    if stage == 11 {
      assert !p.Snapped? && !p.Published?;
    } else if stage != 9 && stage != 10 {
      assert !p.Snapped? && !p.Published? && !p.Notifying?;
    }
  }

  lemma StepKeepsCopies(s: State, a: Action)
    requires JobInv(s) && CopyInv(s.memory, s.crew.workers) && Enabled(s, a)
    requires Grows(s.memory, s.calls, Do(s, a).memory, Do(s, a).calls)
    ensures CopyInv(Do(s, a).memory, Do(s, a).crew.workers)
  {
    hide JobInv, DoCall, DoWork, DoRead;
    match a
    case Work(i) => WorkKeepsCopies(s, i);
    case Call(j, giveUp) => CallFrame(s, j, giveUp);
    case Read(w) => ReadFrame(s, w);
    case _ =>
  }

  lemma WorkerOwns(s: State, i: nat)
    requires JobInv(s) && i < |s.crew.workers| && Busy(s.crew.workers[i])
    ensures var j := s.crew.workers[i].job; j in s.crew.owner && j in s.calls && Accepted(s.calls[j])
  {
    OwnedWasSent(s, s.crew.workers[i].job);
  }

  lemma PutKeepsStore(m: Memory, calls: map<nat, CallPC>, store: map<string, nat>, token: string, r: nat)
    requires StoreInv(m, calls, store) && Origin(m, calls, r, token)
    ensures StoreInv(m, calls, store[token := r])
  {
  }

  lemma StepKeepsStore(s: State, a: Action)
    requires JobInv(s) && SnapshotInv(s.memory, s.calls) && CopyInv(s.memory, s.crew.workers)
    requires StoreInv(s.memory, s.calls, s.shelf.store) && Enabled(s, a)
    requires Grows(s.memory, s.calls, Do(s, a).memory, Do(s, a).calls)
    ensures StoreInv(Do(s, a).memory, Do(s, a).calls, Do(s, a).shelf.store)
  {
    hide JobInv;
    var s' := Do(s, a);
    StoreGrows(s.memory, s.calls, s'.memory, s'.calls, s.shelf.store);
    match a
    case Call(j, giveUp) => CallKeepsStore(s, j, giveUp);
    case Work(i) => WorkKeepsStore(s, i);
    case Read(w) => ReadFrame(s, w);
    case _ =>
  }

  lemma CallKeepsStore(s: State, j: nat, giveUp: bool)
    requires j in s.calls && j < |s.memory.heap| && Running(s.calls[j])
    requires var s' := DoCall(s, j, giveUp); StoreInv(s'.memory, s'.calls, s.shelf.store)
    ensures var s' := DoCall(s, j, giveUp); StoreInv(s'.memory, s'.calls, s'.shelf.store)
  {
    var s' := DoCall(s, j, giveUp);
    if s.calls[j].Storing? {
      PutKeepsStore(s'.memory, s'.calls, s.shelf.store, s.memory.heap[j].token, j);
    } else {
      assert s'.shelf == s.shelf;
    }
  }

  lemma WorkKeepsStore(s: State, i: nat)
    requires JobInv(s) && SnapshotInv(s.memory, s.calls) && CopyInv(s.memory, s.crew.workers)
    requires i < |s.crew.workers| && WorkEnabled(s, s.crew.workers[i])
    requires var s' := DoWork(s, i); StoreInv(s'.memory, s'.calls, s.shelf.store)
    ensures var s' := DoWork(s, i); StoreInv(s'.memory, s'.calls, s'.shelf.store)
  {
    hide JobInv;
    var s' := DoWork(s, i);
    WorkerOwns(s, i);
    var p := s.crew.workers[i];
    if p.Marked? {
      PutKeepsStore(s.memory, s.calls, s.shelf.store, s.memory.heap[p.job].token, p.job);
    } else if p.Snapped? {
      PutKeepsStore(s.memory, s.calls, s.shelf.store, s.memory.heap[p.job].token, p.snap);
    } else {
      assert s'.shelf == s.shelf;
    }
  }

  lemma ReadKeepsLoaded(s: State, w: nat)
    requires StoreInv(s.memory, s.calls, s.shelf.store) && LoadedInv(s.memory, s.calls, s.bells.readers)
    requires w < |s.bells.readers| && ReadEnabled(s, s.bells.readers[w].pc)
    ensures LoadedInv(s.memory, s.calls, DoRead(s, w).bells.readers)
  {
    hide Origin, DoRead, Finished, Delivers;
    ReadMovesOne(s, w);
  }

  lemma StepKeepsLoaded(s: State, a: Action)
    requires StoreInv(s.memory, s.calls, s.shelf.store) && LoadedInv(s.memory, s.calls, s.bells.readers)
    requires Enabled(s, a) && Grows(s.memory, s.calls, Do(s, a).memory, Do(s, a).calls)
    ensures LoadedInv(Do(s, a).memory, Do(s, a).calls, Do(s, a).bells.readers)
  {
    hide DoCall, DoWork, DoRead;
    var s' := Do(s, a);
    LoadedGrows(s.memory, s.calls, s'.memory, s'.calls, s.bells.readers);
    match a
    case Work(i) => WorkFrame(s, i);
    case Call(j, giveUp) => CallFrame(s, j, giveUp);
    case Read(w) => ReadKeepsLoaded(s, w); ReadFrame(s, w);
    case _ =>
  }

  /** Looking at the object behind an origin shows the job as it is now. */
  lemma WitnessKeepsSeen(s: State, r: nat, token: string)
    requires JobInv(s) && SnapshotInv(s.memory, s.calls) && SeenInv(s.memory, s.calls, s.seen)
    requires Origin(s.memory, s.calls, r, token)
    ensures SeenInv(s.memory, s.calls, Witness(s, r))
  {
    hide JobInv, SnapshotInv;
    var o := Witness(s, r)[|s.seen|];
    CurrentSight(s, r, token);
    assert forall k | 0 <= k < |s.seen| && s.seen[k].job == o.job :: Rank(s.seen[k].value) <= Rank(o.value);
  }

  lemma CurrentSight(s: State, r: nat, token: string)
    requires JobInv(s) && SnapshotInv(s.memory, s.calls) && Origin(s.memory, s.calls, r, token)
    ensures var j := if r in s.memory.snapshots then s.memory.snapshots[r] else r;
      && j < |s.memory.heap| && s.memory.heap[r] == s.memory.heap[j]
      && SightOk(s.memory, s.calls, Sight(j, s.memory.heap[r]))
  {
    var j := if r in s.memory.snapshots then s.memory.snapshots[r] else r;
    OwnedWasSent(s, j);
    if j in s.crew.owner {
      if j in s.crew.signalled { } else { HoldsNow(s, s.crew.owner[j]); }
    }
  }

  /** What a blocked call may receive is a snapshot for its token. */
  predicate Receivable(s: State, w: nat) {
    && w < |s.bells.readers|
    && (s.bells.readers[w].pc.Blocked? && Delivers(s, s.bells.readers[w].pc.ch) ==>
          Origin(s.memory, s.calls, s.bells.channels[s.bells.readers[w].pc.ch].buffer[0], s.bells.readers[w].token))
  }

  lemma ReadKeepsSeen(s: State, w: nat)
    requires JobInv(s) && SnapshotInv(s.memory, s.calls) && SeenInv(s.memory, s.calls, s.seen)
    requires LoadedInv(s.memory, s.calls, s.bells.readers) && Receivable(s, w)
    requires w < |s.bells.readers| && ReadEnabled(s, s.bells.readers[w].pc)
    ensures SeenInv(s.memory, s.calls, DoRead(s, w).seen)
  {
    hide JobInv, SeenInv, ReadBells;
    var p := s.bells.readers[w].pc;
    var token := s.bells.readers[w].token;
    if Looking(p) {
      WitnessKeepsSeen(s, p.ref, token);
    } else if p.Blocked? && Delivers(s, p.ch) {
      WitnessKeepsSeen(s, s.bells.channels[p.ch].buffer[0], token);
    } else {
      assert ReadSeen(s, w) == s.seen;
    }
  }

  lemma StepKeepsSeen(s: State, a: Action)
    requires JobInv(s) && SnapshotInv(s.memory, s.calls) && SeenInv(s.memory, s.calls, s.seen)
    requires LoadedInv(s.memory, s.calls, s.bells.readers) && (a.Read? ==> Receivable(s, a.reader))
    requires Enabled(s, a) && Grows(s.memory, s.calls, Do(s, a).memory, Do(s, a).calls)
    ensures SeenInv(Do(s, a).memory, Do(s, a).calls, Do(s, a).seen)
  {
    hide JobInv, SeenInv, DoCall, DoWork, DoRead;
    var s' := Do(s, a);
    SightsGrow(s.memory, s.calls, s'.memory, s'.calls, s.seen);
    match a
    case Work(i) => WorkFrame(s, i);
    case Call(j, giveUp) => CallFrame(s, j, giveUp);
    case Read(w) => ReadKeepsSeen(s, w); ReadFrame(s, w);
    case _ =>
  }

  lemma EntriesGrow(m: Memory, calls: map<nat, CallPC>, m': Memory, calls': map<nat, CallPC>, crew: Crew, shelf: Shelf)
    requires Grows(m, calls, m', calls') && EntryInv(m, calls, crew, shelf)
    requires forall j | j in calls && Stored(calls[j]) :: j < |m.heap|
    requires forall j | j in calls' && Stored(calls'[j]) :: j in calls && Stored(calls[j])
    requires forall j | j in crew.signalled :: j < |m.heap|
    requires forall i | 0 <= i < |crew.workers| && Stage(crew.workers[i]) >= 11 :: crew.workers[i].job < |m.heap|
    ensures EntryInv(m', calls', crew, shelf)
  {
  }

  lemma RemoveKeepsEntries(m: Memory, calls: map<nat, CallPC>, crew: Crew, shelf: Shelf, token: string)
    requires EntryInv(m, calls, crew, shelf)
    ensures EntryInv(m, calls, crew, Remove(shelf, token))
  {
  }

  /** Storing under the token of a job that is not yet published. */
  lemma PutUnpublished(
    m: Memory, calls: map<nat, CallPC>, calls': map<nat, CallPC>, crew: Crew, shelf: Shelf, j: nat, r: nat)
    requires EntryInv(m, calls, crew, shelf) && j in calls && j < |m.heap|
    requires forall k | k in calls' :: k == j || (k in calls && calls'[k] == calls[k])
    requires forall k | k in calls && k < |m.heap| && m.heap[k].token == m.heap[j].token :: k == j
    requires forall k | k in crew.signalled :: k in calls && k != j
    requires forall i | 0 <= i < |crew.workers| && Stage(crew.workers[i]) >= 11 ::
      crew.workers[i].job in calls && crew.workers[i].job != j
    ensures EntryInv(m, calls', crew, Put(shelf, m.heap[j].token, r))
  {
  }

  /** Worker `i` moves to a stage from which its job counts as published. */
  lemma PublishKeepsEntries(m: Memory, calls: map<nat, CallPC>, crew: Crew, shelf: Shelf, i: nat, p: WorkerPC)
    requires EntryInv(m, calls, crew, shelf) && i < |crew.workers|
    requires Busy(p) && EntryFinal(m, shelf.store, p.job)
    ensures EntryInv(m, calls, Advance(crew, i, p), shelf)
    ensures EntryInv(m, calls, Complete(crew, i, p.job), shelf)
  {
  }

  lemma MoveKeepsEntries(m: Memory, calls: map<nat, CallPC>, crew: Crew, shelf: Shelf, i: nat, p: WorkerPC)
    requires EntryInv(m, calls, crew, shelf) && i < |crew.workers| && Stage(p) < 11
    ensures EntryInv(m, calls, Advance(crew, i, p), shelf)
  {
  }

  /** A job no worker has published yet, and the tokens of the others. */
  lemma Unpublished(s: State, j: nat)
    requires JobInv(s) && j in s.calls
    requires j !in s.crew.owner || (j !in s.crew.signalled && Stage(s.crew.workers[s.crew.owner[j]]) < 11)
    ensures j < |s.memory.heap|
    ensures forall k | k in s.calls && k < |s.memory.heap| && s.memory.heap[k].token == s.memory.heap[j].token :: k == j
    ensures forall k | k in s.crew.signalled :: k in s.calls && k != j
    ensures forall i | 0 <= i < |s.crew.workers| && Stage(s.crew.workers[i]) >= 11 ::
      s.crew.workers[i].job in s.calls && s.crew.workers[i].job != j
  {
    assert forall k | k in s.crew.owner :: k in s.line.received && k in s.line.sent;
  }

  lemma PublishedAreObjects(s: State)
    requires JobInv(s)
    ensures forall j | j in s.calls :: j < |s.memory.heap|
    ensures forall j | j in s.crew.signalled :: j < |s.memory.heap|
    ensures forall i | 0 <= i < |s.crew.workers| && Stage(s.crew.workers[i]) >= 11 ::
      s.crew.workers[i].job < |s.memory.heap|
  {
  }

  lemma CallKeepsEntries(s: State, j: nat, giveUp: bool)
    requires JobInv(s) && SnapshotInv(s.memory, s.calls) && EntryInv(s.memory, s.calls, s.crew, s.shelf)
    requires j in s.calls && j < |s.memory.heap| && Running(s.calls[j])
    ensures var s' := DoCall(s, j, giveUp); EntryInv(s'.memory, s'.calls, s'.crew, s'.shelf)
  {
    hide EntryInv, SnapshotInv, Grows;
    var s' := DoCall(s, j, giveUp);
    CallFrame(s, j, giveUp);
    if s.calls[j].Storing? {
      OwnedWasSent(s, j);
      Unpublished(s, j);
      PutUnpublished(s.memory, s.calls, s'.calls, s.crew, s.shelf, j, j);
    } else {
      CallGrows(s, j, giveUp);
      PublishedAreObjects(s);
      EntriesGrow(s.memory, s.calls, s'.memory, s'.calls, s.crew, s.shelf);
    }
  }

  lemma WorkKeepsEntries(s: State, i: nat)
    requires JobInv(s) && SnapshotInv(s.memory, s.calls) && CopyInv(s.memory, s.crew.workers)
    requires EntryInv(s.memory, s.calls, s.crew, s.shelf)
    requires i < |s.crew.workers| && WorkEnabled(s, s.crew.workers[i])
    ensures var s' := DoWork(s, i); EntryInv(s'.memory, s'.calls, s'.crew, s'.shelf)
  {
    hide JobInv, EntryInv, CopyInv, SnapshotInv, Grows;
    var s' := DoWork(s, i);
    var p := s.crew.workers[i];
    WorkFrame(s, i);
    WorkerOwns(s, i);
    WorkerHolds(s, i);
    if p.Marked? {
      Unpublished(s, p.job);
      PutUnpublished(s.memory, s.calls, s.calls, s.crew, s.shelf, p.job, p.job);
      MoveKeepsEntries(s.memory, s.calls, s.crew, s'.shelf, i, Executing(p.job));
    } else if p.Snapped? {
      Unpublished(s, p.job);
      PutUnpublished(s.memory, s.calls, s.calls, s.crew, s.shelf, p.job, p.snap);
      CopyIsSnapshot(s, i);
      PublishKeepsEntries(s.memory, s.calls, s.crew, s'.shelf, i, Published(p.job, p.snap));
    } else if Stage(p) >= 11 {
      CurrentEntry(s, i);
      PublishKeepsEntries(s.memory, s.calls, s.crew, s.shelf, i, p);
      if p.Published? && Listening(s.bells, s.memory.heap[p.job].token) {
        PublishKeepsEntries(s.memory, s.calls, s.crew, s.shelf, i, s'.crew.workers[i]);
      } else if p.Notifying? {
        PublishKeepsEntries(s.memory, s.calls, s.crew, s.shelf, i, Closing(p.job, p.ch));
      }
    } else {
      WorkGrows(s, i);
      PublishedAreObjects(s);
      EntriesGrow(s.memory, s.calls, s'.memory, s'.calls, s.crew, s.shelf);
      MoveKeepsEntries(s'.memory, s'.calls, s.crew, s.shelf, i, s'.crew.workers[i]);
      assert s'.shelf == s.shelf && s'.crew == Advance(s.crew, i, s'.crew.workers[i]);
    }
  }

  lemma WorkerHolds(s: State, i: nat)
    requires JobInv(s) && i < |s.crew.workers| && Busy(s.crew.workers[i])
    ensures var j := s.crew.workers[i].job; j !in s.crew.signalled && j in s.crew.owner && s.crew.owner[j] == i
  {
  }

  lemma CopyIsSnapshot(s: State, i: nat)
    requires CopyInv(s.memory, s.crew.workers) && i < |s.crew.workers| && s.crew.workers[i].Snapped?
    ensures s.crew.workers[i].snap in s.memory.snapshots
  {
  }

  lemma CurrentEntry(s: State, i: nat)
    requires EntryInv(s.memory, s.calls, s.crew, s.shelf) && i < |s.crew.workers| && Stage(s.crew.workers[i]) >= 11
    ensures EntryFinal(s.memory, s.shelf.store, s.crew.workers[i].job)
  {
  }

  lemma SweeperIsAside(m: Memory, calls: map<nat, CallPC>, crew: Crew, shelf: Shelf, sweeper: SweeperPC)
    requires EntryInv(m, calls, crew, shelf)
    ensures EntryInv(m, calls, crew, shelf.(sweeper := sweeper))
  {
  }

  lemma StepKeepsEntries(s: State, a: Action)
    requires JobInv(s) && SnapshotInv(s.memory, s.calls) && CopyInv(s.memory, s.crew.workers)
    requires EntryInv(s.memory, s.calls, s.crew, s.shelf) && Enabled(s, a)
    requires Grows(s.memory, s.calls, Do(s, a).memory, Do(s, a).calls)
    ensures var s' := Do(s, a); EntryInv(s'.memory, s'.calls, s'.crew, s'.shelf)
  {
    hide JobInv, SnapshotInv, EntryInv, CopyInv, DoCall, DoWork, DoRead, Grows;
    var s' := Do(s, a);
    match a
    case Work(i) => WorkKeepsEntries(s, i);
    case Call(j, giveUp) => CallKeepsEntries(s, j, giveUp);
    case Read(w) => ReadFrame(s, w);
    case Delete(token) => RemoveKeepsEntries(s.memory, s.calls, s.crew, s.shelf, token);
    case SweepLoad(_, _) => SweeperIsAside(s.memory, s.calls, s.crew, s.shelf, s'.shelf.sweeper);
    case SweepLook => SweeperIsAside(s.memory, s.calls, s.crew, s.shelf, s'.shelf.sweeper);
    case SweepAge => SweeperIsAside(s.memory, s.calls, s.crew, s.shelf, s'.shelf.sweeper);
    case SweepDelete =>
      RemoveKeepsEntries(s.memory, s.calls, s.crew, s.shelf, s.shelf.sweeper.key);
      SweeperIsAside(s.memory, s.calls, s.crew, Remove(s.shelf, s.shelf.sweeper.key), Roaming);
    case Receive(i) =>
      HeadIsUnowned(s);
      MoveKeepsEntries(s.memory, s.calls, s.crew, s.shelf, i, Received(s.line.chan[0]));
      OwnerIsAside(s.memory, s.calls, s'.crew, Advance(s.crew, i, Received(s.line.chan[0])), s.shelf);
    case Leave(i) => MoveKeepsEntries(s.memory, s.calls, s.crew, s.shelf, i, Left);
    case Finish(i, _) =>
      PublishedAreObjects(s);
      EntriesGrow(s.memory, s.calls, s'.memory, s'.calls, s.crew, s.shelf);
      MoveKeepsEntries(s'.memory, s'.calls, s.crew, s.shelf, i, Finalising(s.crew.workers[i].job));
    case Submit(_) =>
      PublishedAreObjects(s);
      EntriesGrow(s.memory, s.calls, s'.memory, s'.calls, s.crew, s.shelf);
    case _ =>
  }

  lemma OwnerIsAside(m: Memory, calls: map<nat, CallPC>, crew: Crew, crew': Crew, shelf: Shelf)
    requires EntryInv(m, calls, crew', shelf)
    requires crew'.workers == crew.workers && crew'.signalled == crew.signalled
    ensures EntryInv(m, calls, crew, shelf)
  {
  }

  lemma InitShelf(s: State)
    requires Init(s)
    ensures ShelfInv(s)
  {
  }

  lemma StepKeepsShelf(s: State, a: Action)
    requires JobInv(s) && ShelfInv(s) && Enabled(s, a) && (a.Read? ==> Receivable(s, a.reader))
    ensures ShelfInv(Do(s, a))
  {
    hide JobInv, SnapshotInv, CopyInv, StoreInv, LoadedInv, SeenInv, EntryInv, Enabled, Do, Grows;
    StepGrows(s, a);
    StepKeepsSnapshots(s, a);
    StepKeepsCopies(s, a);
    StepKeepsStore(s, a);
    StepKeepsLoaded(s, a);
    StepKeepsSeen(s, a);
    StepKeepsEntries(s, a);
  }
}
