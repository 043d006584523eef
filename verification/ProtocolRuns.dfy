/** What holds over every run of the queue and its workers. */
module ProtocolRuns {
  import opened Jobs
  import opened Protocol
  import opened ProtocolJobs
  import opened ProtocolStore
  import opened ProtocolBells
  import opened ProtocolCounters
  import opened ProtocolWakeup

  ghost predicate AllInv(s: State) {
    Inv(s) && CountInv(s) && WakeInv(s)
  }

  lemma StepKeepsAll(s: State, a: Action)
    requires AllInv(s) && Enabled(s, a)
    ensures AllInv(Do(s, a))
  {
    hide Inv, CountInv, WakeInv, Do, Enabled;
    InvParts(s);
    StepKeepsInv(s, a);
    StepKeepsCounts(s, a);
    StepKeepsWake(s, a);
  }

  lemma InvParts(s: State)
    requires Inv(s)
    ensures JobInv(s) && ShelfInv(s) && BellInv(s)
  {
  }

  /** The invariant holds in every state of every run. */
  lemma {:induction false} RunKeepsAll(tr: seq<State>, k: nat)
    requires Run(tr) && k < |tr|
    ensures AllInv(tr[k])
  {
    if k == 0 {
      InitInv(tr[0]);
      InitCounts(tr[0]);
      InitWake(tr[0]);
    } else {
      RunKeepsAll(tr, k - 1);
      assert Next(tr[k - 1], tr[k - 1 + 1]);
      var a :| Enabled(tr[k - 1], a) && tr[k] == Do(tr[k - 1], a);
      StepKeepsAll(tr[k - 1], a);
    }
  }

  /** No lost wakeup, over runs: however the operations interleave, a call that waits alone for
      a token that nobody removed can take the finished job from its channel as soon as the
      token's `SignalCompleted` has returned. */
  lemma WakeupOnEveryRun(tr: seq<State>, k: nat, w: nat, j: nat)
    requires Run(tr) && k < |tr|
    requires w < |tr[k].bells.readers| && tr[k].bells.readers[w].pc.Blocked? && Sole(tr[k].bells.readers, w)
    requires j in tr[k].crew.signalled && j < |tr[k].memory.heap|
    requires tr[k].memory.heap[j].token == tr[k].bells.readers[w].token
    requires tr[k].bells.readers[w].token !in tr[k].shelf.removed
    ensures j in tr[k].memory.verdict && Finished(tr[k].memory.verdict[j])
    ensures CanReturn(tr[k], w, tr[k].memory.verdict[j])
  {
    RunKeepsAll(tr, k);
    NoLostWakeup(tr[k], w, j);
  }

  // Counters.

  ghost predicate Quiescent(s: State) {
    && (forall i | 0 <= i < |s.crew.workers| :: !Busy(s.crew.workers[i]))
    && Uncounted(s.calls) == {}
  }

  function AdmittedCalls(calls: map<nat, CallPC>): set<nat> {
    set j | j in calls && calls[j].Admitted?
  }

  /** At every step inQueue is the channel's length but for sends not yet counted and receives
      not yet subtracted, and processing never leaves its range. */
  lemma CountersOnEveryRun(tr: seq<State>, k: nat)
    requires Run(tr) && k < |tr|
    ensures var s := tr[k]; s.stats.inQueue == |s.line.chan| - |Uncounted(s.calls)| + |Between(s.crew.workers, 1, 1)|
    ensures 0 <= tr[k].stats.processing <= |tr[k].crew.workers|
    ensures tr[k].stats.processing == |Between(tr[k].crew.workers, 3, 6)|
    ensures tr[k].stats.completed == |AcceptedIn(tr[k].stats.tallied, tr[k].memory.verdict)|
    ensures tr[k].stats.completed + tr[k].stats.failed == |tr[k].stats.tallied|
  {
    RunKeepsAll(tr, k);
    BetweenMost(tr[k].crew.workers, 3, 6);
  }

  lemma {:induction false} DistinctCount(q: seq<nat>, elements: set<nat>)
    requires NoDuplicates(q) && forall j :: j in elements <==> j in q
    ensures |elements| == |q|
  {
    if q == [] {
      assert elements == {};
    } else {
      var n := |q| - 1;
      DistinctCount(q[..n], elements - {q[n]});
    }
  }

  /** Whenever nothing is in flight, the total of the four counters is the number of `Enqueue`
      calls that succeeded, and each counter is the size of what it names. */
  lemma TotalWhenQuiescent(tr: seq<State>, k: nat)
    requires Run(tr) && k < |tr| && Quiescent(tr[k])
    ensures Total(tr[k].stats) == |AdmittedCalls(tr[k].calls)|
    ensures tr[k].stats.inQueue == |tr[k].line.chan| && tr[k].stats.processing == 0
    ensures tr[k].stats.completed == |AcceptedIn(tr[k].crew.signalled, tr[k].memory.verdict)|
    ensures tr[k].stats.completed + tr[k].stats.failed == |tr[k].crew.signalled|
  {
    var s := tr[k];
    RunKeepsAll(tr, k);
    NoneAt(s.crew.workers, 1, 1);
    NoneAt(s.crew.workers, 2, 2);
    NoneAt(s.crew.workers, 3, 6);
    NoneAt(s.crew.workers, 7, 8);
    SentAreAdmitted(s);
    TalliedAreSignalled(s);
  }

  lemma SentAreAdmitted(s: State)
    requires JobInv(s) && Uncounted(s.calls) == {}
    ensures |AdmittedCalls(s.calls)| == |s.line.sent|
  {
    forall j ensures j in AdmittedCalls(s.calls) <==> j in s.line.sent {
      assert j !in Uncounted(s.calls);
    }
    DistinctCount(s.line.sent, AdmittedCalls(s.calls));
  }

  lemma TalliedAreSignalled(s: State)
    requires AllInv(s) && Quiescent(s)
    ensures s.stats.tallied == s.crew.signalled
  {
  }

  // Exactly once, in order.

  /** Jobs come out of the channel in the order in which they went in, none twice; a received
      job has one owner, and is held by it or signalled, never both. */
  lemma FifoOnEveryRun(tr: seq<State>, k: nat)
    requires Run(tr) && k < |tr|
    ensures var s := tr[k]; s.line.sent == s.line.received + s.line.chan && NoDuplicates(s.line.sent)
    ensures forall j :: j in tr[k].line.sent <==> j in tr[k].calls && Accepted(tr[k].calls[j])
    ensures forall j | j in tr[k].line.received ::
      && j in tr[k].crew.owner && tr[k].crew.owner[j] < |tr[k].crew.workers|
      && (j in tr[k].crew.signalled <==>
            !(Busy(tr[k].crew.workers[tr[k].crew.owner[j]]) && tr[k].crew.workers[tr[k].crew.owner[j]].job == j))
  {
    RunKeepsAll(tr, k);
  }

  /** A worker about to write a result writes into a job that has none yet. */
  lemma WrittenOnce(tr: seq<State>, k: nat, i: nat, final: Job)
    requires Run(tr) && k < |tr| && Enabled(tr[k], Finish(i, final))
    ensures tr[k].crew.workers[i].job !in tr[k].memory.verdict
    ensures var j := tr[k].crew.workers[i].job;
      Do(tr[k], Finish(i, final)).memory.verdict == tr[k].memory.verdict[j := final]
  {
    hide AllInv, JobInv, ShelfInv, BellInv, CountInv, WakeInv, DoCall, DoWork, DoRead, Init;
    RunKeepsAll(tr, k);
    AllParts(tr[k]);
    HoldsNow(tr[k], i);
  }

  /** A worker becomes idle again only by signalling its job, with the result written, and for
      the first time. */
  lemma SignalledOnce(tr: seq<State>, k: nat, i: nat)
    requires Run(tr) && k < |tr| && i < |tr[k].crew.workers| && WorkEnabled(tr[k], tr[k].crew.workers[i])
    requires DoWork(tr[k], i).crew.workers[i].Idle?
    ensures var j := tr[k].crew.workers[i].job;
      && j in tr[k].memory.verdict && j !in tr[k].crew.signalled
      && DoWork(tr[k], i).crew.signalled == tr[k].crew.signalled + {j}
  {
    hide AllInv, JobInv;
    RunKeepsAll(tr, k);
    AllParts(tr[k]);
    IdleAfterSignal(tr[k], i);
  }

  lemma IdleAfterSignal(s: State, i: nat)
    requires JobInv(s) && i < |s.crew.workers| && WorkEnabled(s, s.crew.workers[i])
    requires DoWork(s, i).crew.workers[i].Idle?
    ensures var j := s.crew.workers[i].job;
      && j in s.memory.verdict && j !in s.crew.signalled
      && DoWork(s, i).crew.signalled == s.crew.signalled + {j}
  {
    hide JobInv, Finished, TakeListener, SendOn, CloseChannel;
    WorkerHolds(s, i);
    HoldsNow(s, i);
  }

  lemma AllParts(s: State)
    requires AllInv(s)
    ensures JobInv(s) && ShelfInv(s) && BellInv(s) && CountInv(s) && WakeInv(s)
  {
  }

  /** Once every worker has left, each accepted job is finalised or still in the channel, and
      not both. */
  lemma NothingLostAtStop(tr: seq<State>, k: nat, j: nat)
    requires Run(tr) && k < |tr| && forall i | 0 <= i < |tr[k].crew.workers| :: tr[k].crew.workers[i].Left?
    requires j in tr[k].calls && Accepted(tr[k].calls[j])
    ensures j in tr[k].crew.signalled <==> j !in tr[k].line.chan
    ensures j in tr[k].crew.signalled ==> j in tr[k].memory.verdict
  {
    hide AllInv;
    RunKeepsAll(tr, k);
    AllParts(tr[k]);
    Disjoint(tr[k].line.received, tr[k].line.chan);
    assert j in tr[k].line.sent;
  }

  lemma Disjoint(a: seq<nat>, b: seq<nat>)
    requires NoDuplicates(a + b)
    ensures forall j | j in a :: j !in b
  {
    forall k, l | 0 <= k < |a| && 0 <= l < |b| ensures a[k] != b[l] {
      assert (a + b)[k] != (a + b)[|a| + l];
    }
  }

  // Publication.

  /** Whatever two snapshots of one token are handed out, the later is not behind the earlier,
      and after a finished one every later one is identical to it. */
  lemma SnapshotsAgree(tr: seq<State>, n: nat, k: nat, l: nat)
    requires Run(tr) && n < |tr| && k < l < |tr[n].seen|
    requires tr[n].seen[k].value.token == tr[n].seen[l].value.token
    ensures Rank(tr[n].seen[k].value) <= Rank(tr[n].seen[l].value)
    ensures Finished(tr[n].seen[k].value) ==> tr[n].seen[l].value == tr[n].seen[k].value
  {
    hide AllInv, JobInv, ShelfInv, BellInv, CountInv, WakeInv;
    RunKeepsAll(tr, n);
    AllParts(tr[n]);
    SightsAgree(tr[n], k, l);
  }

  lemma SeenOfShelf(s: State)
    requires ShelfInv(s)
    ensures SeenInv(s.memory, s.calls, s.seen)
  {
  }

  lemma SightsAgree(s: State, k: nat, l: nat)
    requires JobInv(s) && ShelfInv(s) && k < l < |s.seen| && s.seen[k].value.token == s.seen[l].value.token
    ensures Rank(s.seen[k].value) <= Rank(s.seen[l].value)
    ensures Finished(s.seen[k].value) ==> s.seen[l].value == s.seen[k].value
  {
    hide JobInv, ShelfInv;
    SeenOfShelf(s);
    assert SightOk(s.memory, s.calls, s.seen[k]) && SightOk(s.memory, s.calls, s.seen[l]);
    SameToken(s, s.seen[k].job, s.seen[l].job);
  }

  /** A snapshot shows either a finished job with exactly what its worker wrote in its one
      write, or an unfinished job with no part of a result. */
  lemma SnapshotsAreWhole(tr: seq<State>, n: nat, k: nat)
    requires Run(tr) && n < |tr| && k < |tr[n].seen|
    ensures var o := tr[n].seen[k];
      if Finished(o.value) then
        o.job in tr[n].memory.verdict && o.value == tr[n].memory.verdict[o.job] && o.value.output.finishedAt.Some?
      else o.value.output == NO_OUTPUT
  {
    hide AllInv;
    RunKeepsAll(tr, n);
    AllParts(tr[n]);
    var o := tr[n].seen[k];
    assert SightOk(tr[n].memory, tr[n].calls, o);
    VerdictsStand(tr[n]);
  }

  lemma {:induction false} ObjectsGrow(tr: seq<State>, k: nat, l: nat)
    requires Run(tr) && k <= l < |tr|
    ensures Grows(tr[k].memory, tr[k].calls, tr[l].memory, tr[l].calls)
  {
    hide Inv, CountInv, WakeInv, Do, Enabled, Grows;
    if k == l {
      RunKeepsAll(tr, k);
      AllParts(tr[k]);
      ShelfParts(tr[k]);
      GrowsReflexive(tr[k].memory, tr[k].calls);
    } else {
      ObjectsGrow(tr, k, l - 1);
      RunKeepsAll(tr, l - 1);
      assert Next(tr[l - 1], tr[l - 1 + 1]);
      var a :| Enabled(tr[l - 1], a) && tr[l] == Do(tr[l - 1], a);
      AllParts(tr[l - 1]);
      ShelfParts(tr[l - 1]);
      StepGrows(tr[l - 1], a);
      GrowsTransitive(tr[k].memory, tr[k].calls, tr[l - 1].memory, tr[l - 1].calls, tr[l].memory, tr[l].calls);
    }
  }

  lemma GrowsReflexive(m: Memory, calls: map<nat, CallPC>)
    requires SnapshotInv(m, calls)
    ensures Grows(m, calls, m, calls)
  {
  }

  lemma GrowsTransitive(
    m: Memory, calls: map<nat, CallPC>, m': Memory, calls': map<nat, CallPC>, m'': Memory, calls'': map<nat, CallPC>)
    requires Grows(m, calls, m', calls') && Grows(m', calls', m'', calls'')
    ensures Grows(m, calls, m'', calls'')
  {
  }

  /** Over a run the status of a job's object only goes forward, and once its result has been
      written the object never changes again. */
  lemma StatusOnlyForward(tr: seq<State>, k: nat, l: nat, j: nat)
    requires Run(tr) && k <= l < |tr|
    requires j in tr[k].calls && Stored(tr[k].calls[j]) && j < |tr[k].memory.heap|
    ensures j < |tr[l].memory.heap| && Rank(tr[k].memory.heap[j]) <= Rank(tr[l].memory.heap[j])
    ensures j in tr[k].memory.verdict ==>
      j in tr[l].memory.verdict && tr[l].memory.verdict[j] == tr[k].memory.verdict[j]
      && tr[k].memory.heap[j] == tr[k].memory.verdict[j] == tr[l].memory.heap[j]
  {
    hide AllInv, JobInv, ShelfInv, BellInv, CountInv, WakeInv;
    ObjectsGrow(tr, k, l);
    RunKeepsAll(tr, k);
    RunKeepsAll(tr, l);
    AllParts(tr[k]);
    AllParts(tr[l]);
    VerdictsStand(tr[k]);
    VerdictsStand(tr[l]);
  }

  // After SignalCompleted.

  /** The entry of job `j`'s token did not change, except that it may have been removed. */
  predicate OnlyRemoved(before: map<string, nat>, after: map<string, nat>, token: string) {
    token in after ==> token in before && after[token] == before[token]
  }

  lemma SignalledEntryStays(s: State, a: Action, j: nat)
    requires JobInv(s) && ShelfInv(s) && Enabled(s, a) && j in s.crew.signalled && j < |s.memory.heap|
    ensures OnlyRemoved(s.shelf.store, Do(s, a).shelf.store, s.memory.heap[j].token)
  {
    hide JobInv, ShelfInv, DoCall, DoWork, DoRead;
    OwnedWasSent(s, j);
    SignalledWasOwned(s, j);
    match a
    case Call(k, giveUp) =>
      OwnedWasSent(s, k);
      if s.calls[k].Storing? {
        if s.memory.heap[k].token == s.memory.heap[j].token { SameToken(s, k, j); }
      }
      CallStores(s, k, giveUp);
    case Work(i) =>
      WorkerHolds(s, i);
      WorkerOwns(s, i);
      if s.memory.heap[s.crew.workers[i].job].token == s.memory.heap[j].token {
        SameToken(s, s.crew.workers[i].job, j);
      }
      WorkStores(s, i);
    case Read(w) => ReadFrame(s, w);
    case _ =>
  }

  lemma SignalledWasOwned(s: State, j: nat)
    requires JobInv(s) && j in s.crew.signalled
    ensures j in s.crew.owner
  {
  }

  lemma CallStores(s: State, k: nat, giveUp: bool)
    requires k in s.calls && k < |s.memory.heap| && Running(s.calls[k])
    ensures forall token | token != s.memory.heap[k].token || !s.calls[k].Storing? ::
      OnlyRemoved(s.shelf.store, DoCall(s, k, giveUp).shelf.store, token)
  {
  }

  lemma WorkStores(s: State, i: nat)
    requires i < |s.crew.workers| && WorkEnabled(s, s.crew.workers[i])
    ensures forall token | token != s.memory.heap[s.crew.workers[i].job].token ::
      OnlyRemoved(s.shelf.store, DoWork(s, i).shelf.store, token)
  {
  }

  /** From the moment `SignalCompleted` has returned, the token's entry is the final snapshot or
      gone, and once gone it stays gone. */
  lemma {:induction false} EntryOnlyRemoved(tr: seq<State>, k: nat, l: nat, j: nat)
    requires Run(tr) && k <= l < |tr| && j in tr[k].crew.signalled && j < |tr[k].memory.heap|
    ensures OnlyRemoved(tr[k].shelf.store, tr[l].shelf.store, tr[k].memory.heap[j].token)
    ensures j in tr[l].crew.signalled && j < |tr[l].memory.heap|
    ensures tr[l].memory.heap[j] == tr[k].memory.heap[j]
    ensures var token := tr[k].memory.heap[j].token; token in tr[l].shelf.store ==>
      var r := tr[l].shelf.store[token]; r < |tr[l].memory.heap| && tr[l].memory.heap[r] == tr[k].memory.heap[j]
  {
    hide AllInv, JobInv, ShelfInv, BellInv, CountInv, WakeInv, Do, Enabled;
    RunKeepsAll(tr, l);
    AllParts(tr[l]);
    if k < l {
      EntryOnlyRemoved(tr, k, l - 1, j);
      RunKeepsAll(tr, l - 1);
      AllParts(tr[l - 1]);
      assert Next(tr[l - 1], tr[l - 1 + 1]);
      var a :| Enabled(tr[l - 1], a) && tr[l] == Do(tr[l - 1], a);
      SignalledEntryStays(tr[l - 1], a, j);
      SignalledStays(tr[l - 1], a);
      ObjectsGrow(tr, l - 1, l);
      DecidedUnchanged(tr[l - 1], tr[l], j);
    }
    SignalledEntryIsFinal(tr[l], j);
  }

  lemma SignalledStays(s: State, a: Action)
    requires Enabled(s, a)
    ensures s.crew.signalled <= Do(s, a).crew.signalled
  {
    if a.Call? { CallFrame(s, a.j, a.giveUp); }
    if a.Read? { ReadFrame(s, a.reader); }
    hide DoCall, DoRead;
    if a.Work? { SignalledStaysAtWork(s, a.worker); }
  }

  lemma SignalledStaysAtWork(s: State, i: nat)
    requires i < |s.crew.workers| && WorkEnabled(s, s.crew.workers[i])
    ensures s.crew.signalled <= DoWork(s, i).crew.signalled
  {
  }

  lemma DecidedUnchanged(s: State, s': State, j: nat)
    requires JobInv(s) && JobInv(s') && Grows(s.memory, s.calls, s'.memory, s'.calls) && j in s.crew.signalled
    ensures j < |s.memory.heap| && j < |s'.memory.heap| && s'.memory.heap[j] == s.memory.heap[j]
  {
    VerdictsStand(s);
    VerdictsStand(s');
  }

  lemma SignalledEntryIsFinal(s: State, j: nat)
    requires JobInv(s) && ShelfInv(s) && j in s.crew.signalled && j < |s.memory.heap|
    ensures var token := s.memory.heap[j].token; token in s.shelf.store ==>
      var r := s.shelf.store[token]; r < |s.memory.heap| && s.memory.heap[r] == s.memory.heap[j]
  {
    SignalledWasOwned(s, j);
    OwnedWasSent(s, j);
    var token := s.memory.heap[j].token;
    if token in s.shelf.store {
      assert EntryFinal(s.memory, s.shelf.store, j);
      var r := s.shelf.store[token];
      SameToken(s, s.memory.snapshots[r], j);
    }
  }
}
