/** What every atomic operation keeps about the jobs themselves: each accepted job is in
    exactly one place, and its object holds what that place says. */
module ProtocolJobs {
  import opened Jobs
  import opened Protocol

  predicate NoDuplicates(q: seq<nat>) {
    forall a, b | 0 <= a < b < |q| :: q[a] != q[b]
  }

  /** How far worker `p` has come with its job. */
  function Stage(p: WorkerPC): nat {
    match p
    case Idle => 0
    case Left => 0
    case Received(_) => 1
    case Dequeued(_) => 2
    case Holding(_) => 3
    case Marked(_) => 4
    case Executing(_) => 5
    case Finalising(_) => 6
    case Released(_) => 7
    case Judged(_, _) => 8
    case Tallied(_) => 9
    case Snapped(_, _) => 10
    case Published(_, _) => 11
    case Notifying(_, _, _) => 12
    case Closing(_, _) => 13
  }

  predicate Accepted(c: CallPC) {
    c.Counting? || c.Admitted?
  }

  /** Jobs are told apart by their tokens; the channel is what was sent and not yet received. */
  ghost predicate Queueing(heap: seq<Job>, calls: map<nat, CallPC>, line: Line) {
    && (forall j | j in calls :: j < |heap|)
    && (forall j, k | j in calls && k in calls && heap[j].token == heap[k].token :: j == k)
    && line.sent == line.received + line.chan
    && NoDuplicates(line.sent)
    && (forall j :: j in line.sent <==> j in calls && Accepted(calls[j]))
  }

  /** A received job is held by the one worker that received it until it has been signalled. */
  ghost predicate Ownership(received: seq<nat>, crew: Crew) {
    && (forall j :: j in crew.owner <==> j in received)
    && (forall j | j in crew.signalled :: j in crew.owner)
    && (forall j | j in crew.owner :: crew.owner[j] < |crew.workers|)
    && (forall i | 0 <= i < |crew.workers| && Busy(crew.workers[i]) ::
          var j := crew.workers[i].job; j in crew.owner && crew.owner[j] == i && j !in crew.signalled)
    && (forall j | j in crew.owner && j !in crew.signalled ::
          Busy(crew.workers[crew.owner[j]]) && crew.workers[crew.owner[j]].job == j)
  }

  /** What a job's object holds when its worker has reached `stage`. */
  predicate Holds(m: Memory, j: nat, stage: nat) {
    && j < |m.heap|
    && (stage <= 3 ==> m.heap[j].status == IN_QUEUE && m.heap[j].output == NO_OUTPUT)
    && (4 <= stage <= 5 ==> m.heap[j].status == PROCESSING && m.heap[j].output == NO_OUTPUT)
    && (stage <= 5 ==> j !in m.verdict)
    && (stage >= 6 ==> Decided(m, j))
  }

  /** The worker's one write has happened and nothing has touched the object since. */
  predicate Decided(m: Memory, j: nat) {
    && j < |m.heap|
    && j in m.verdict && m.heap[j] == m.verdict[j]
    && Finished(m.heap[j]) && m.heap[j].output.finishedAt.Some?
  }

  /** Before a worker has the job, its object holds no output. */
  ghost predicate Untouched(m: Memory, calls: map<nat, CallPC>, owner: map<nat, nat>) {
    && (forall j | j in m.verdict :: j in owner)
    && (forall j | j in calls && j !in owner ::
          && j < |m.heap| && m.heap[j].output == NO_OUTPUT
          && (!calls[j].Checking? && !calls[j].Setting? && !calls[j].Declined? ==> m.heap[j].status == IN_QUEUE))
  }

  ghost predicate InProgress(m: Memory, workers: seq<WorkerPC>) {
    forall i | 0 <= i < |workers| && Busy(workers[i]) :: Holds(m, workers[i].job, Stage(workers[i]))
  }

  ghost predicate Settled(m: Memory, signalled: set<nat>) {
    forall j | j in signalled :: Decided(m, j)
  }

  ghost predicate JobInv(s: State) {
    && Queueing(s.memory.heap, s.calls, s.line)
    && Ownership(s.line.received, s.crew)
    && Untouched(s.memory, s.calls, s.crew.owner)
    && InProgress(s.memory, s.crew.workers)
    && Settled(s.memory, s.crew.signalled)
  }

  lemma OwnedWasSent(s: State, j: nat)
    requires JobInv(s)
    ensures j in s.crew.owner ==> j in s.line.sent && j in s.calls && Accepted(s.calls[j])
  {
    assert j in s.crew.owner ==> j in s.line.received;
  }

  lemma HeadIsUnowned(s: State)
    requires JobInv(s) && |s.line.chan| > 0
    ensures s.line.chan[0] !in s.crew.owner && s.line.chan[0] in s.calls && Accepted(s.calls[s.line.chan[0]])
  {
    var j := s.line.chan[0];
    var n := |s.line.received|;
    assert s.line.sent[n] == j;
    forall k | 0 <= k < n ensures s.line.received[k] != j {
      assert s.line.sent[k] != s.line.sent[n];
    }
    assert j in s.line.sent;
  }

  // Steps of one worker, in terms of the parts they touch.

  lemma OwnershipAdvances(received: seq<nat>, crew: Crew, i: nat, p: WorkerPC)
    requires Ownership(received, crew) && i < |crew.workers|
    requires Busy(crew.workers[i]) && Busy(p) && p.job == crew.workers[i].job
    ensures Ownership(received, Advance(crew, i, p))
  {
  }

  lemma OwnershipReceives(received: seq<nat>, crew: Crew, i: nat, j: nat)
    requires Ownership(received, crew) && i < |crew.workers| && crew.workers[i].Idle? && j !in crew.owner
    ensures Ownership(received + [j], Crew(crew.workers[i := Received(j)], crew.owner[j := i], crew.signalled))
  {
  }

  lemma OwnershipCompletes(received: seq<nat>, crew: Crew, i: nat)
    requires Ownership(received, crew) && i < |crew.workers| && Busy(crew.workers[i])
    ensures Ownership(received, Complete(crew, i, crew.workers[i].job))
  {
  }

  /** A worker that writes only into its own job disturbs no other job. */
  lemma WriteOwnJob(s: State, i: nat, m: Memory, p: WorkerPC)
    requires JobInv(s) && i < |s.crew.workers| && Busy(s.crew.workers[i]) && Busy(p)
    requires p.job == s.crew.workers[i].job && Holds(m, p.job, Stage(p))
    requires |m.heap| == |s.memory.heap| && m.heap[p.job].token == s.memory.heap[p.job].token
    requires forall r | 0 <= r < |m.heap| && r != p.job :: m.heap[r] == s.memory.heap[r]
    requires forall j | j != p.job :: (j in m.verdict <==> j in s.memory.verdict)
    requires forall j | j != p.job && j in m.verdict :: m.verdict[j] == s.memory.verdict[j]
    ensures Queueing(m.heap, s.calls, s.line)
    ensures Untouched(m, s.calls, s.crew.owner)
    ensures InProgress(m, s.crew.workers[i := p])
    ensures Settled(m, s.crew.signalled)
  {
    WriteKeepsLine(s, m);
    WriteKeepsContents(s, i, m, p);
  }

  lemma WriteKeepsLine(s: State, m: Memory)
    requires Queueing(s.memory.heap, s.calls, s.line) && |m.heap| == |s.memory.heap|
    requires forall r | 0 <= r < |m.heap| :: m.heap[r].token == s.memory.heap[r].token
    ensures Queueing(m.heap, s.calls, s.line)
  {
  }

  lemma WriteKeepsContents(s: State, i: nat, m: Memory, p: WorkerPC)
    requires Ownership(s.line.received, s.crew) && Untouched(s.memory, s.calls, s.crew.owner)
    requires InProgress(s.memory, s.crew.workers) && Settled(s.memory, s.crew.signalled)
    requires i < |s.crew.workers| && Busy(s.crew.workers[i]) && Busy(p)
    requires p.job == s.crew.workers[i].job && Holds(m, p.job, Stage(p)) && |m.heap| == |s.memory.heap|
    requires forall r | 0 <= r < |m.heap| && r != p.job :: m.heap[r] == s.memory.heap[r]
    requires forall j | j != p.job :: (j in m.verdict <==> j in s.memory.verdict)
    requires forall j | j != p.job && j in m.verdict :: m.verdict[j] == s.memory.verdict[j]
    ensures Untouched(m, s.calls, s.crew.owner) && InProgress(m, s.crew.workers[i := p]) && Settled(m, s.crew.signalled)
  {
  }

  /** Objects that are only added leave every old statement in place. */
  lemma AllocateKeepsContents(m: Memory, m': Memory, calls: map<nat, CallPC>, line: Line, crew: Crew)
    requires Queueing(m.heap, calls, line) && Untouched(m, calls, crew.owner)
    requires InProgress(m, crew.workers) && Settled(m, crew.signalled)
    requires |m.heap| <= |m'.heap| && m'.heap[..|m.heap|] == m.heap && m'.verdict == m.verdict
    ensures Queueing(m'.heap, calls, line)
    ensures Untouched(m', calls, crew.owner) && InProgress(m', crew.workers) && Settled(m', crew.signalled)
  {
    assert forall r | 0 <= r < |m.heap| :: m'.heap[r] == m'.heap[..|m.heap|][r] == m.heap[r];
  }

  lemma HoldsNow(s: State, i: nat)
    requires JobInv(s) && i < |s.crew.workers| && Busy(s.crew.workers[i])
    ensures Holds(s.memory, s.crew.workers[i].job, Stage(s.crew.workers[i]))
    ensures Stage(s.crew.workers[i]) >= 6 ==> Decided(s.memory, s.crew.workers[i].job)
  {
  }

  lemma InitJobs(s: State)
    requires Init(s)
    ensures JobInv(s)
  {
  }

  lemma SameJobs(s: State, s': State)
    requires JobInv(s)
    requires s'.memory == s.memory && s'.calls == s.calls && s'.line == s.line && s'.crew == s.crew
    ensures JobInv(s')
  {
  }

  lemma AllocateKeepsJobs(s: State, s': State)
    requires JobInv(s) && s'.calls == s.calls && s'.line == s.line && s'.crew == s.crew
    requires |s.memory.heap| <= |s'.memory.heap| && s'.memory.heap[..|s.memory.heap|] == s.memory.heap
    requires s'.memory.verdict == s.memory.verdict
    ensures JobInv(s')
  {
    AllocateKeepsContents(s.memory, s'.memory, s.calls, s.line, s.crew);
  }

  lemma SubmitKeepsJobs(s: State, job: Job)
    requires JobInv(s) && Enabled(s, Submit(job))
    ensures JobInv(Do(s, Submit(job)))
  {
    var j := |s.memory.heap|;
    var s' := Do(s, Submit(job));
    assert j !in s.calls;
    AllocateKeepsContents(s.memory, s'.memory, s.calls, s.line, s.crew);
    OwnedWasSent(s, j);
  }

  /** Writing into a job that no worker has received. */
  lemma WriteUnowned(m: Memory, m': Memory, crew: Crew, received: seq<nat>, j: nat)
    requires Ownership(received, crew) && j !in crew.owner && j < |m.heap|
    requires InProgress(m, crew.workers) && Settled(m, crew.signalled)
    requires |m'.heap| == |m.heap| && m'.verdict == m.verdict
    requires forall r | 0 <= r < |m.heap| && r != j :: m'.heap[r] == m.heap[r]
    ensures InProgress(m', crew.workers) && Settled(m', crew.signalled)
  {
  }

  lemma QueueingMoves(heap: seq<Job>, heap': seq<Job>, calls: map<nat, CallPC>, line: Line, j: nat, c: CallPC)
    requires Queueing(heap, calls, line) && j in calls && Accepted(c) == Accepted(calls[j])
    requires |heap'| == |heap| && forall r | 0 <= r < |heap| :: heap'[r].token == heap[r].token
    ensures Queueing(heap', calls[j := c], line)
  {
  }

  lemma SettingKeepsJobs(s: State, j: nat)
    requires JobInv(s) && j in s.calls && j < |s.memory.heap| && s.calls[j].Setting?
    ensures JobInv(DoCall(s, j, false))
  {
    OwnedWasSent(s, j);
    WriteUnowned(s.memory, SetStatus(s.memory, j, IN_QUEUE), s.crew, s.line.received, j);
    QueueingMoves(s.memory.heap, SetStatus(s.memory, j, IN_QUEUE).heap, s.calls, s.line, j, Storing);
    hide Queueing, Ownership, InProgress, Settled;
  }

  lemma SendingKeepsJobs(s: State, j: nat, giveUp: bool)
    requires JobInv(s) && j in s.calls && j < |s.memory.heap| && s.calls[j].Sending?
    ensures JobInv(DoCall(s, j, giveUp))
  {
    OwnedWasSent(s, j);
  }

  /** A step of a call that touches neither the job nor the channel. */
  lemma CallOnKeepsJobs(s: State, s': State, j: nat, c: CallPC)
    requires JobInv(s) && j in s.calls && Accepted(c) == Accepted(s.calls[j])
    requires s.calls[j].Checking? || s.calls[j].Storing? || s.calls[j].Counting?
    requires s.calls[j].Checking? ==> c.Declined? || c.Setting?
    requires s'.memory == s.memory && s'.calls == s.calls[j := c] && s'.line == s.line && s'.crew == s.crew
    ensures JobInv(s')
  {
    QueueingMoves(s.memory.heap, s.memory.heap, s.calls, s.line, j, c);
  }

  lemma CallKeepsJobs(s: State, j: nat, giveUp: bool)
    requires JobInv(s) && j in s.calls && j < |s.memory.heap| && Running(s.calls[j])
    ensures JobInv(DoCall(s, j, giveUp))
  {
    hide JobInv;
    var s' := DoCall(s, j, giveUp);
    match s.calls[j]
    case Checking => CallOnKeepsJobs(s, s', j, s'.calls[j]);
    case Setting => SettingKeepsJobs(s, j);
    case Storing => CallOnKeepsJobs(s, s', j, Sending);
    case Sending => SendingKeepsJobs(s, j, giveUp);
    case Counting => CallOnKeepsJobs(s, s', j, Admitted);
  }

  lemma ReceiveKeepsJobs(s: State, i: nat)
    requires JobInv(s) && Enabled(s, Receive(i))
    ensures JobInv(Do(s, Receive(i)))
  {
    hide Queueing, Ownership, Untouched, InProgress, Settled, Holds, Decided;
    HeadIsUnowned(s);
    OwnershipReceives(s.line.received, s.crew, i, s.line.chan[0]);
    ReceiveKeepsContents(s, i);
    ReceiveKeepsLine(s.memory.heap, s.calls, s.line);
  }

  lemma ReceiveKeepsLine(heap: seq<Job>, calls: map<nat, CallPC>, line: Line)
    requires Queueing(heap, calls, line) && |line.chan| > 0
    ensures Queueing(heap, calls, Line(line.chan[1..], line.sent, line.received + [line.chan[0]]))
  {
    assert (line.received + [line.chan[0]]) + line.chan[1..] == line.received + line.chan;
  }

  lemma ReceiveKeepsContents(s: State, i: nat)
    requires Untouched(s.memory, s.calls, s.crew.owner) && InProgress(s.memory, s.crew.workers)
    requires i < |s.crew.workers| && |s.line.chan| > 0
    requires var j := s.line.chan[0]; j !in s.crew.owner && j in s.calls && Accepted(s.calls[j])
    ensures var j := s.line.chan[0];
      Untouched(s.memory, s.calls, s.crew.owner[j := i]) && InProgress(s.memory, s.crew.workers[i := Received(j)])
  {
  }

  lemma SnapshotKeepsJobs(s: State, i: nat)
    requires JobInv(s) && i < |s.crew.workers| && s.crew.workers[i].Tallied? && s.crew.workers[i].job < |s.memory.heap|
    ensures JobInv(DoWork(s, i))
  {
    hide JobInv;
    var p := Snapped(s.crew.workers[i].job, |s.memory.heap|);
    var s' := DoWork(s, i);
    HoldsNow(s, i);
    AdvanceKeepsJobs(s, s.(crew := Advance(s.crew, i, p)), i, p);
    AllocateKeepsJobs(s.(crew := Advance(s.crew, i, p)), s');
  }

  /** A step that only moves a worker on. */
  lemma AdvanceKeepsJobs(s: State, s': State, i: nat, p: WorkerPC)
    requires JobInv(s) && i < |s.crew.workers| && Busy(s.crew.workers[i]) && Busy(p)
    requires p.job == s.crew.workers[i].job && Holds(s.memory, p.job, Stage(p))
    requires s'.memory == s.memory && s'.calls == s.calls && s'.line == s.line && s'.crew == Advance(s.crew, i, p)
    ensures JobInv(s')
  {
    OwnershipAdvances(s.line.received, s.crew, i, p);
  }

  lemma CompleteKeepsJobs(s: State, s': State, i: nat)
    requires JobInv(s) && i < |s.crew.workers| && Busy(s.crew.workers[i])
    requires Decided(s.memory, s.crew.workers[i].job)
    requires s'.memory == s.memory && s'.calls == s.calls && s'.line == s.line
    requires s'.crew == Complete(s.crew, i, s.crew.workers[i].job)
    ensures JobInv(s')
  {
    OwnershipCompletes(s.line.received, s.crew, i);
  }

  /** A worker writes into its own job and moves on. */
  lemma WriteKeepsJobs(s: State, s': State, i: nat, p: WorkerPC)
    requires JobInv(s) && i < |s.crew.workers| && Busy(s.crew.workers[i]) && Busy(p)
    requires p.job == s.crew.workers[i].job && p.job < |s.memory.heap| && Holds(s'.memory, p.job, Stage(p))
    requires exists job: Job :: s'.memory.heap == s.memory.heap[p.job := job] && job.token == s.memory.heap[p.job].token
    requires s'.memory.verdict == s.memory.verdict
      || (p.job < |s'.memory.heap| && s'.memory.verdict == s.memory.verdict[p.job := s'.memory.heap[p.job]])
    requires s'.calls == s.calls && s'.line == s.line && s'.crew == Advance(s.crew, i, p)
    ensures JobInv(s')
  {
    hide Queueing, Ownership, Untouched, InProgress, Settled;
    OwnershipAdvances(s.line.received, s.crew, i, p);
    WriteOwnJob(s, i, s'.memory, p);
  }

  lemma EarlyWorkKeepsJobs(s: State, i: nat)
    requires JobInv(s) && i < |s.crew.workers| && WorkEnabled(s, s.crew.workers[i])
    requires Stage(s.crew.workers[i]) <= 7
    ensures JobInv(DoWork(s, i))
  {
    hide JobInv;
    var p := s.crew.workers[i];
    var s' := DoWork(s, i);
    HoldsNow(s, i);
    match p
    case Holding(j) =>
      assert s'.memory.heap == s.memory.heap[j := s.memory.heap[j].(status := PROCESSING)];
      WriteKeepsJobs(s, s', i, Marked(j));
    case Received(j) => AdvanceKeepsJobs(s, s', i, Dequeued(j));
    case Dequeued(j) => AdvanceKeepsJobs(s, s', i, Holding(j));
    case Marked(j) => AdvanceKeepsJobs(s, s', i, Executing(j));
    case Finalising(j) => AdvanceKeepsJobs(s, s', i, Released(j));
    case Released(_) => AdvanceKeepsJobs(s, s', i, s'.crew.workers[i]);
  }

  lemma WorkKeepsJobs(s: State, i: nat)
    requires JobInv(s) && i < |s.crew.workers| && WorkEnabled(s, s.crew.workers[i])
    ensures JobInv(DoWork(s, i))
  {
    hide JobInv;
    var p := s.crew.workers[i];
    var s' := DoWork(s, i);
    if Stage(p) <= 7 { EarlyWorkKeepsJobs(s, i); return; }
    HoldsNow(s, i);
    match p
    case Tallied(_) => SnapshotKeepsJobs(s, i);
    case Published(j, _) =>
      if s'.crew.workers[i].Notifying? {
        AdvanceKeepsJobs(s, s', i, s'.crew.workers[i]);
      } else {
        CompleteKeepsJobs(s, s', i);
      }
    case Closing(_, _) => CompleteKeepsJobs(s, s', i);
    case Judged(j, _) => AdvanceKeepsJobs(s, s', i, Tallied(j));
    case Snapped(j, snap) => AdvanceKeepsJobs(s, s', i, Published(j, snap));
    case Notifying(j, _, c) => AdvanceKeepsJobs(s, s', i, Closing(j, c));
  }

  lemma FinishKeepsJobs(s: State, i: nat, final: Job)
    requires JobInv(s) && Enabled(s, Finish(i, final))
    ensures JobInv(Do(s, Finish(i, final)))
  {
    hide JobInv;
    HoldsNow(s, i);
    WriteKeepsJobs(s, Do(s, Finish(i, final)), i, Finalising(s.crew.workers[i].job));
  }

  lemma ReadKeepsJobs(s: State, w: nat)
    requires JobInv(s) && w < |s.bells.readers| && ReadEnabled(s, s.bells.readers[w].pc)
    ensures JobInv(DoRead(s, w))
  {
    hide JobInv;
    SameJobs(s, DoRead(s, w));
  }

  lemma OwnershipLeaves(received: seq<nat>, crew: Crew, i: nat)
    requires Ownership(received, crew) && i < |crew.workers| && crew.workers[i].Idle?
    ensures Ownership(received, Advance(crew, i, Left))
  {
  }

  lemma LeaveKeepsJobs(s: State, i: nat)
    requires JobInv(s) && Enabled(s, Leave(i))
    ensures JobInv(Do(s, Leave(i)))
  {
    hide Queueing, Ownership, Untouched, Settled;
    OwnershipLeaves(s.line.received, s.crew, i);
  }

  lemma StepKeepsJobs(s: State, a: Action)
    requires JobInv(s) && Enabled(s, a)
    ensures JobInv(Do(s, a))
  {
    hide JobInv;
    match a
    case Submit(job) => SubmitKeepsJobs(s, job);
    case Call(j, giveUp) => CallKeepsJobs(s, j, giveUp);
    case Receive(i) => ReceiveKeepsJobs(s, i);
    case Leave(i) => LeaveKeepsJobs(s, i);
    case Finish(i, final) => FinishKeepsJobs(s, i, final);
    case Work(i) => WorkKeepsJobs(s, i);
    case Read(w) => ReadKeepsJobs(s, w);
    case _ => SameJobs(s, Do(s, a));
  }
}
