/** The four atomic counters lag behind the channel and the workers; corrected by the calls and
    workers that stand between an operation and its add, they are exact at every step. */
module ProtocolCounters {
  import opened Jobs
  import opened Protocol
  import opened ProtocolJobs
  import opened ProtocolStore

  /** Jobs sent but not yet counted in inQueue. */
  function Uncounted(calls: map<nat, CallPC>): set<nat> {
    set j | j in calls && calls[j].Counting?
  }

  /** Workers whose stage lies between `lo` and `hi`. */
  function Between(workers: seq<WorkerPC>, lo: nat, hi: nat): set<nat> {
    set i: nat | i < |workers| && lo <= Stage(workers[i]) <= hi
  }

  /** Tallied jobs whose verdict is Accepted. */
  function AcceptedIn(tallied: set<nat>, verdict: map<nat, Job>): set<nat> {
    set j | j in tallied && j in verdict && verdict[j].status == ACCEPTED
  }

  function Total(stats: Stats): int {
    stats.inQueue + stats.processing + stats.completed + stats.failed
  }

  /** Exactly the jobs past the add of their worker are tallied. */
  ghost predicate TallyInv(verdict: map<nat, Job>, crew: Crew, tallied: set<nat>) {
    && (forall j | j in tallied :: j in crew.owner && j in verdict)
    && (forall j | j in crew.signalled :: j in tallied)
    && (forall i | 0 <= i < |crew.workers| && Busy(crew.workers[i]) ::
          crew.workers[i].job in tallied <==> Stage(crew.workers[i]) >= 9)
    && (forall i | 0 <= i < |crew.workers| && crew.workers[i].Judged? ::
          && crew.workers[i].job in verdict
          && crew.workers[i].accepted == (verdict[crew.workers[i].job].status == ACCEPTED))
  }

  /** The sums, with the corrections for what is in flight. */
  ghost predicate Sums(
    calls: map<nat, CallPC>, line: Line, workers: seq<WorkerPC>, verdict: map<nat, Job>, stats: Stats) {
    && stats.inQueue == |line.chan| - |Uncounted(calls)| + |Between(workers, 1, 1)|
    && stats.processing == |Between(workers, 3, 6)|
    && stats.completed == |AcceptedIn(stats.tallied, verdict)|
    && stats.completed + stats.failed == |stats.tallied|
    && Total(stats) == |line.sent| - |Uncounted(calls)| - |Between(workers, 2, 2)| - |Between(workers, 7, 8)|
  }

  ghost predicate CountInv(s: State) {
    && TallyInv(s.memory.verdict, s.crew, s.stats.tallied)
    && Sums(s.calls, s.line, s.crew.workers, s.memory.verdict, s.stats)
  }

  function One(b: bool): nat {
    if b then 1 else 0
  }

  /** Two sets that agree but for `x`. */
  lemma Toggled(a: set<nat>, b: set<nat>, x: nat)
    requires a - {x} == b - {x}
    ensures |b| == |a| - One(x in a) + One(x in b)
  {
    assert |a - {x}| == |a| - One(x in a);
    assert |b - {x}| == |b| - One(x in b);
  }

  lemma BetweenMoves(workers: seq<WorkerPC>, i: nat, p: WorkerPC, lo: nat, hi: nat)
    requires i < |workers|
    ensures |Between(workers[i := p], lo, hi)| ==
      |Between(workers, lo, hi)| - One(lo <= Stage(workers[i]) <= hi) + One(lo <= Stage(p) <= hi)
  {
    Toggled(Between(workers, lo, hi), Between(workers[i := p], lo, hi), i);
  }

  lemma BetweenMost(workers: seq<WorkerPC>, lo: nat, hi: nat)
    ensures |Between(workers, lo, hi)| <= |workers|
  {
    if workers == [] {
      assert Between(workers, lo, hi) == {};
    } else {
      var n := |workers| - 1;
      BetweenMost(workers[..n], lo, hi);
      assert Between(workers, lo, hi) - {n} == Between(workers[..n], lo, hi);
    }
  }

  lemma UncountedMoves(calls: map<nat, CallPC>, j: nat, c: CallPC)
    ensures |Uncounted(calls[j := c])| ==
      |Uncounted(calls)| - One(j in calls && calls[j].Counting?) + One(c.Counting?)
  {
    Toggled(Uncounted(calls), Uncounted(calls[j := c]), j);
  }

  lemma WorkersMove(workers: seq<WorkerPC>, i: nat, p: WorkerPC)
    requires i < |workers|
    ensures |Between(workers[i := p], 1, 1)| ==
      |Between(workers, 1, 1)| - One(Stage(workers[i]) == 1) + One(Stage(p) == 1)
    ensures |Between(workers[i := p], 2, 2)| ==
      |Between(workers, 2, 2)| - One(Stage(workers[i]) == 2) + One(Stage(p) == 2)
    ensures |Between(workers[i := p], 3, 6)| ==
      |Between(workers, 3, 6)| - One(3 <= Stage(workers[i]) <= 6) + One(3 <= Stage(p) <= 6)
    ensures |Between(workers[i := p], 7, 8)| ==
      |Between(workers, 7, 8)| - One(7 <= Stage(workers[i]) <= 8) + One(7 <= Stage(p) <= 8)
  {
    BetweenMoves(workers, i, p, 1, 1);
    BetweenMoves(workers, i, p, 2, 2);
    BetweenMoves(workers, i, p, 3, 6);
    BetweenMoves(workers, i, p, 7, 8);
  }

  /** Later verdicts do not change how tallied jobs are counted. */
  lemma AcceptedStays(tallied: set<nat>, verdict: map<nat, Job>, verdict': map<nat, Job>)
    requires forall j | j in tallied :: j in verdict && j in verdict' && verdict'[j] == verdict[j]
    ensures AcceptedIn(tallied, verdict') == AcceptedIn(tallied, verdict)
  {
  }

  lemma AcceptedGrows(tallied: set<nat>, verdict: map<nat, Job>, j: nat)
    requires j !in tallied && j in verdict
    ensures |AcceptedIn(tallied + {j}, verdict)| == |AcceptedIn(tallied, verdict)| + One(verdict[j].status == ACCEPTED)
  {
    if verdict[j].status == ACCEPTED {
      assert AcceptedIn(tallied + {j}, verdict) == AcceptedIn(tallied, verdict) + {j};
    } else {
      assert AcceptedIn(tallied + {j}, verdict) == AcceptedIn(tallied, verdict);
    }
  }

  /** A worker moves on and at most adjusts inQueue or processing. */
  lemma WorkerMovesSums(s: State, s': State, i: nat, p: WorkerPC)
    requires Sums(s.calls, s.line, s.crew.workers, s.memory.verdict, s.stats) && i < |s.crew.workers|
    requires s'.calls == s.calls && s'.crew.workers == s.crew.workers[i := p] && s'.line.sent == s.line.sent
    requires AcceptedIn(s.stats.tallied, s'.memory.verdict) == AcceptedIn(s.stats.tallied, s.memory.verdict)
    requires s'.stats.tallied == s.stats.tallied
    requires s'.stats.completed == s.stats.completed && s'.stats.failed == s.stats.failed
    requires var old' := Stage(s.crew.workers[i]); var new' := Stage(p);
      && s'.stats.inQueue - s.stats.inQueue == |s'.line.chan| - |s.line.chan| - One(old' == 1) + One(new' == 1)
      && s'.stats.processing - s.stats.processing == One(3 <= new' <= 6) - One(3 <= old' <= 6)
      && s'.stats.inQueue + s'.stats.processing - s.stats.inQueue - s.stats.processing ==
           One(old' == 2) - One(new' == 2) + One(7 <= old' <= 8) - One(7 <= new' <= 8)
    ensures Sums(s'.calls, s'.line, s'.crew.workers, s'.memory.verdict, s'.stats)
  {
    WorkersMove(s.crew.workers, i, p);
  }

  lemma TallySums(s: State, i: nat)
    requires CountInv(s) && i < |s.crew.workers| && s.crew.workers[i].Judged?
    requires WorkEnabled(s, s.crew.workers[i])
    ensures var s' := DoWork(s, i); Sums(s'.calls, s'.line, s'.crew.workers, s'.memory.verdict, s'.stats)
  {
    var j := s.crew.workers[i].job;
    WorkersMove(s.crew.workers, i, Tallied(j));
    AcceptedGrows(s.stats.tallied, s.memory.verdict, j);
  }

  /** What a step other than the tally does to the counters, by the stages it leaves and enters. */
  lemma WorkCounts(s: State, i: nat)
    requires i < |s.crew.workers| && WorkEnabled(s, s.crew.workers[i]) && !s.crew.workers[i].Judged?
    ensures var s' := DoWork(s, i);
      && s'.memory.verdict == s.memory.verdict && s'.stats.tallied == s.stats.tallied
      && s'.stats.completed == s.stats.completed && s'.stats.failed == s.stats.failed
      && |s'.crew.workers| == |s.crew.workers|
  {
    hide TakeListener, SendOn, CloseChannel, Put, Listening;
  }

  lemma WorkMovesCounts(s: State, i: nat)
    requires i < |s.crew.workers| && WorkEnabled(s, s.crew.workers[i]) && !s.crew.workers[i].Judged?
    requires |DoWork(s, i).crew.workers| == |s.crew.workers|
    ensures var s' := DoWork(s, i); var old', new' := Stage(s.crew.workers[i]), Stage(s'.crew.workers[i]);
      && s'.stats.inQueue - s.stats.inQueue == One(new' == 1) - One(old' == 1)
      && s'.stats.processing - s.stats.processing == One(3 <= new' <= 6) - One(3 <= old' <= 6)
      && s'.stats.inQueue + s'.stats.processing - s.stats.inQueue - s.stats.processing ==
           One(old' == 2) - One(new' == 2) + One(7 <= old' <= 8) - One(7 <= new' <= 8)
  {
    hide TakeListener, SendOn, CloseChannel, Put, Listening, SetStatus;
  }

  lemma WorkKeepsSums(s: State, i: nat)
    requires JobInv(s) && CountInv(s) && i < |s.crew.workers| && WorkEnabled(s, s.crew.workers[i])
    ensures var s' := DoWork(s, i); Sums(s'.calls, s'.line, s'.crew.workers, s'.memory.verdict, s'.stats)
  {
    WorkFrame(s, i);
    if s.crew.workers[i].Judged? {
      TallySums(s, i);
    } else {
      hide JobInv, CountInv, Sums, TallyInv, DoWork, WorkEnabled, Stage, One;
      SumsNow(s);
      WorkCounts(s, i);
      WorkMovesCounts(s, i);
      WorkerMovesSums(s, DoWork(s, i), i, DoWork(s, i).crew.workers[i]);
    }
  }

  lemma SumsNow(s: State)
    requires CountInv(s)
    ensures Sums(s.calls, s.line, s.crew.workers, s.memory.verdict, s.stats)
    ensures TallyInv(s.memory.verdict, s.crew, s.stats.tallied)
  {
  }

  lemma OthersHoldOthers(s: State, i: nat)
    requires JobInv(s) && i < |s.crew.workers| && Busy(s.crew.workers[i])
    ensures forall k | 0 <= k < |s.crew.workers| && k != i && Busy(s.crew.workers[k]) ::
      s.crew.workers[k].job != s.crew.workers[i].job
  {
  }

  lemma TallyMoves(verdict: map<nat, Job>, crew: Crew, tallied: set<nat>, i: nat, p: WorkerPC)
    requires TallyInv(verdict, crew, tallied) && i < |crew.workers| && Busy(crew.workers[i]) && Busy(p)
    requires p.job == crew.workers[i].job && (Stage(p) >= 9) == (Stage(crew.workers[i]) >= 9)
    requires p.Judged? ==> p.job in verdict && p.accepted == (verdict[p.job].status == ACCEPTED)
    ensures TallyInv(verdict, Advance(crew, i, p), tallied)
  {
  }

  lemma TallyCompletes(verdict: map<nat, Job>, crew: Crew, tallied: set<nat>, i: nat)
    requires TallyInv(verdict, crew, tallied) && i < |crew.workers| && Stage(crew.workers[i]) >= 9
    ensures TallyInv(verdict, Complete(crew, i, crew.workers[i].job), tallied)
  {
  }

  lemma TallyAdds(verdict: map<nat, Job>, crew: Crew, tallied: set<nat>, i: nat)
    requires TallyInv(verdict, crew, tallied) && i < |crew.workers| && crew.workers[i].Judged?
    requires crew.workers[i].job in crew.owner
    requires forall k | 0 <= k < |crew.workers| && k != i && Busy(crew.workers[k]) ::
      crew.workers[k].job != crew.workers[i].job
    ensures var j := crew.workers[i].job; TallyInv(verdict, Advance(crew, i, Tallied(j)), tallied + {j})
  {
  }

  lemma WorkKeepsTally(s: State, i: nat)
    requires JobInv(s) && CountInv(s) && i < |s.crew.workers| && WorkEnabled(s, s.crew.workers[i])
    ensures var s' := DoWork(s, i); TallyInv(s'.memory.verdict, s'.crew, s'.stats.tallied)
  {
    hide JobInv, TallyInv, Sums, Holds;
    var s' := DoWork(s, i);
    var p := s.crew.workers[i];
    var p' := s'.crew.workers[i];
    HoldsNow(s, i);
    WorkerHolds(s, i);
    if p.Judged? {
      OthersHoldOthers(s, i);
      TallyAdds(s.memory.verdict, s.crew, s.stats.tallied, i);
    } else if p'.Idle? {
      TallyCompletes(s.memory.verdict, s.crew, s.stats.tallied, i);
      assert s'.crew == Complete(s.crew, i, p.job);
    } else {
      assert s'.crew == Advance(s.crew, i, p');
      TallyMoves(s.memory.verdict, s.crew, s.stats.tallied, i, p');
      assert s'.memory.verdict == s.memory.verdict && s'.stats.tallied == s.stats.tallied;
    }
  }

  lemma TallyReceives(verdict: map<nat, Job>, crew: Crew, tallied: set<nat>, i: nat, j: nat)
    requires TallyInv(verdict, crew, tallied) && i < |crew.workers| && j !in crew.owner
    ensures TallyInv(verdict, Crew(crew.workers[i := Received(j)], crew.owner[j := i], crew.signalled), tallied)
  {
  }

  lemma TallyDecides(verdict: map<nat, Job>, crew: Crew, tallied: set<nat>, i: nat, final: Job)
    requires TallyInv(verdict, crew, tallied) && i < |crew.workers| && crew.workers[i].Executing?
    requires forall k | 0 <= k < |crew.workers| && k != i && Busy(crew.workers[k]) ::
      crew.workers[k].job != crew.workers[i].job
    ensures crew.workers[i].job !in tallied
    ensures var j := crew.workers[i].job; TallyInv(verdict[j := final], Advance(crew, i, Finalising(j)), tallied)
  {
  }

  lemma TalliedAreDecided(s: State)
    requires CountInv(s)
    ensures forall j | j in s.stats.tallied :: j in s.memory.verdict
  {
  }

  lemma FinishKeepsCounts(s: State, i: nat, final: Job)
    requires JobInv(s) && CountInv(s) && Enabled(s, Finish(i, final))
    ensures CountInv(Do(s, Finish(i, final)))
  {
    hide JobInv, TallyInv;
    var j := s.crew.workers[i].job;
    var s' := Do(s, Finish(i, final));
    OthersHoldOthers(s, i);
    TallyDecides(s.memory.verdict, s.crew, s.stats.tallied, i, final);
    TalliedAreDecided(s);
    AcceptedStays(s.stats.tallied, s.memory.verdict, s'.memory.verdict);
    WorkerMovesSums(s, s', i, Finalising(j));
    hide Sums;
  }

  lemma ReceiveKeepsCounts(s: State, i: nat)
    requires JobInv(s) && CountInv(s) && Enabled(s, Receive(i))
    ensures CountInv(Do(s, Receive(i)))
  {
    hide JobInv, TallyInv;
    HeadIsUnowned(s);
    TallyReceives(s.memory.verdict, s.crew, s.stats.tallied, i, s.line.chan[0]);
    WorkerMovesSums(s, Do(s, Receive(i)), i, Received(s.line.chan[0]));
    hide Sums;
  }

  lemma CallKeepsCounts(s: State, j: nat, giveUp: bool)
    requires JobInv(s) && CountInv(s) && j in s.calls && j < |s.memory.heap| && Running(s.calls[j])
    ensures CountInv(DoCall(s, j, giveUp))
  {
    hide JobInv, TallyInv;
    var s' := DoCall(s, j, giveUp);
    CallFrame(s, j, giveUp);
    UncountedMoves(s.calls, j, s'.calls[j]);
    assert s'.memory.verdict == s.memory.verdict && s'.calls == s.calls[j := s'.calls[j]];
  }

  lemma SubmitKeepsCounts(s: State, job: Job)
    requires JobInv(s) && CountInv(s) && Enabled(s, Submit(job))
    ensures CountInv(Do(s, Submit(job)))
  {
    JobsAreObjects(s);
    hide JobInv, TallyInv;
    UncountedMoves(s.calls, |s.memory.heap|, Checking);
  }

  lemma LeaveKeepsCounts(s: State, i: nat)
    requires CountInv(s) && Enabled(s, Leave(i))
    ensures CountInv(Do(s, Leave(i)))
  {
    WorkerMovesSums(s, Do(s, Leave(i)), i, Left);
  }

  lemma NoneAt(workers: seq<WorkerPC>, lo: nat, hi: nat)
    requires lo >= 1 && forall i | 0 <= i < |workers| :: !Busy(workers[i])
    ensures Between(workers, lo, hi) == {}
  {
  }

  lemma InitCounts(s: State)
    requires Init(s)
    ensures CountInv(s)
  {
    NoneAt(s.crew.workers, 1, 1);
    NoneAt(s.crew.workers, 2, 2);
    NoneAt(s.crew.workers, 3, 6);
    NoneAt(s.crew.workers, 7, 8);
  }

  lemma StepKeepsCounts(s: State, a: Action)
    requires JobInv(s) && CountInv(s) && Enabled(s, a)
    ensures CountInv(Do(s, a))
  {
    hide JobInv, TallyInv, Sums, DoCall, DoWork, DoRead;
    match a
    case Work(i) => WorkKeepsSums(s, i); WorkKeepsTally(s, i);
    case Call(j, giveUp) => CallKeepsCounts(s, j, giveUp);
    case Read(w) => ReadFrame(s, w);
    case Receive(i) => ReceiveKeepsCounts(s, i);
    case Finish(i, final) => FinishKeepsCounts(s, i, final);
    case Leave(i) => LeaveKeepsCounts(s, i);
    case Submit(job) => SubmitKeepsCounts(s, job);
    case _ =>
  }
}
