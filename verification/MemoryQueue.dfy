/** The queue and the worker as the program's own objects (pkg/queue/queue.go,
    pkg/queue/memory.go, pkg/queue/worker.go), one call at a time. The store holds the very
    objects that the workers write into. `GetSubmission` hands out copies, and so does `WaitForResult`
    but for what comes through its channel: that is the object that was stored. */
module MemoryQueue {
  import opened Wrappers
  import opened Jobs
  import opened Verdict

  class SubmissionJob {
    const token: string
    const request: Request
    var status: int
    var output: Output

    function View(): Job
      reads this
    {
      Job(token, request, status, output)
    }

    constructor (job: Job)
      ensures View() == job
    {
      token, request, status, output := job.token, job.request, job.status, job.output;
    }

    method SetStatus(s: int)
      modifies this
      ensures View() == old(View()).(status := s)
    {
      status := s;
    }

    method GetStatus() returns (s: int)
      ensures s == View().status
    {
      s := status;
    }

    method IsFinished() returns (b: bool)
      ensures b <==> Finished(View())
    {
      b := status > PROCESSING;
    }

    method Snapshot() returns (copy: SubmissionJob)
      ensures fresh(copy) && copy.View() == View()
    {
      copy := new SubmissionJob(View());
    }
  }

  /** A channel of capacity one on which a waiting call is told the result. */
  class ResultChannel {
    var buffer: seq<SubmissionJob>
    var closed: bool

    constructor ()
      ensures buffer == [] && !closed
    {
      buffer, closed := [], false;
    }

    /** A send that is dropped if the channel is full, then the close. */
    method Deliver(job: SubmissionJob)
      modifies this
      ensures closed && buffer == if old(buffer) == [] then [job] else old(buffer)
    {
      if |buffer| < 1 {
        buffer := [job];
      }
      closed := true;
    }
  }

  datatype EnqueueError = QueueClosed | BufferFull | EnqueueCancelled

  /** What a call of `Dequeue` comes to; `Blocked` if it goes on waiting. */
  datatype Taken = Delivered(job: SubmissionJob) | ClosedAndEmpty | TakeCancelled | Blocked

  datatype QueueStats = QueueStats(inQueue: int, processing: int, completed: int, failed: int, total: int)

  function CountAccepted(finished: seq<int>): nat {
    if finished == [] then 0
    else CountAccepted(finished[..|finished| - 1]) + if finished[|finished| - 1] == ACCEPTED then 1 else 0
  }

  /** What the counter of completed jobs counts. */
  lemma {:induction false} CountAcceptedExactly(finished: seq<int>)
    ensures CountAccepted(finished) == |set k | 0 <= k < |finished| && finished[k] == 3|
  {
    if finished != [] {
      var n := |finished| - 1;
      CountAcceptedExactly(finished[..n]);
      var before := set k | 0 <= k < n && finished[..n][k] == 3;
      var all := set k | 0 <= k < |finished| && finished[k] == 3;
      assert all == before + if finished[n] == 3 then {n} else {};
    }
  }

  class MemoryQueue {
    const capacity: nat
    const ttl: int
    var jobs: seq<SubmissionJob>
    var store: map<string, SubmissionJob>
    var listeners: map<string, ResultChannel>
    var inQueue: int
    var processing: int
    var completed: int
    var failed: int
    var closed: bool
    // history
    ghost var accepted: seq<SubmissionJob>    // jobs whose Enqueue succeeded
    ghost var delivered: seq<SubmissionJob>   // jobs handed to workers
    ghost var signalled: seq<int>             // status of each job signalled as completed

    ghost predicate Valid()
      reads this
    {
      && 0 < capacity && |jobs| <= capacity
      && accepted == delivered + jobs
      && inQueue == |jobs|
      && processing == |delivered| - |signalled|
      && completed == CountAccepted(signalled) && completed + failed == |signalled|
    }

    constructor (bufferSize: int, ttl: int)
      ensures Valid() && accepted == [] && delivered == [] && signalled == [] && store == map[] && !closed
      ensures listeners == map[]
      ensures capacity == if bufferSize <= 0 then 10000 else bufferSize
      ensures this.ttl == if ttl <= 0 then 3600 * NANOS_PER_SECOND else ttl
    {
      capacity := if bufferSize <= 0 then 10000 else bufferSize;
      this.ttl := if ttl <= 0 then 3600 * NANOS_PER_SECOND else ttl;
      jobs, store, listeners := [], map[], map[];
      inQueue, processing, completed, failed := 0, 0, 0, 0;
      closed := false;
      accepted, delivered, signalled := [], [], [];
    }

    /** The job is stored before the send is tried: refused for lack of room, it stays in the
        store as In Queue. When the context has ended and there is room, the select may take
        either; `sends` tells which. */
    method Enqueue(job: SubmissionJob, cancelled: bool, sends: bool) returns (error: Option<EnqueueError>)
      requires Valid()
      modifies this, job
      ensures Valid() && delivered == old(delivered) && signalled == old(signalled) && listeners == old(listeners)
      ensures closed == old(closed)
      ensures error ==
        if closed then Some(QueueClosed)
        else if old(|jobs|) < capacity && (!cancelled || sends) then None
        else if cancelled then Some(EnqueueCancelled)
        else Some(BufferFull)
      ensures accepted == if error == None then old(accepted) + [job] else old(accepted)
      ensures store == if closed then old(store) else old(store)[job.token := job]
      ensures job.View() == if closed then old(job.View()) else old(job.View()).(status := IN_QUEUE)
    {
      if closed {
        return Some(QueueClosed);
      }
      job.SetStatus(IN_QUEUE);
      store := store[job.token := job];
      if |jobs| < capacity && (!cancelled || sends) {
        jobs := jobs + [job];
        accepted := accepted + [job];
        inQueue := inQueue + 1;
        return None;
      }
      if cancelled {
        return Some(EnqueueCancelled);
      }
      return Some(BufferFull);
    }

    /** The oldest job that was accepted and not yet delivered. A closed channel still hands out
        what it holds. When the context has ended and the channel is ready, the select may take
        either; `receives` tells which. */
    method Dequeue(cancelled: bool, receives: bool) returns (r: Taken)
      requires Valid()
      modifies this
      ensures Valid() && accepted == old(accepted) && signalled == old(signalled)
      ensures store == old(store) && listeners == old(listeners) && closed == old(closed)
      ensures r ==
        if |old(delivered)| < |accepted| && (!cancelled || receives) then Delivered(accepted[|old(delivered)|])
        else if |old(delivered)| == |accepted| && closed && (!cancelled || receives) then ClosedAndEmpty
        else if cancelled then TakeCancelled
        else Blocked
      ensures delivered == if r.Delivered? then old(delivered) + [r.job] else old(delivered)
    {
      if (|jobs| > 0 || closed) && (!cancelled || receives) {
        if |jobs| == 0 {
          return ClosedAndEmpty;
        }
        var j := jobs[0];
        jobs := jobs[1..];
        delivered := delivered + [j];
        inQueue := inQueue - 1;
        processing := processing + 1;
        return Delivered(j);
      }
      if cancelled {
        return TakeCancelled;
      }
      return Blocked;
    }

    /** A copy of what the store holds: writing into it does not reach the store. */
    method GetSubmission(token: string) returns (job: SubmissionJob?)
      ensures job == null <==> token !in store
      ensures job != null ==> fresh(job) && job.View() == store[token].View()
    {
      if token !in store {
        return null;
      }
      job := store[token].Snapshot();
    }

    method UpdateSubmission(job: SubmissionJob)
      requires Valid()
      modifies this`store
      ensures Valid() && store == old(store)[job.token := job]
    {
      store := store[job.token := job];
    }

    method DeleteSubmission(token: string) returns (found: bool)
      requires Valid()
      modifies this`store
      ensures Valid() && store == old(store) - {token}
      ensures found <==> token in old(store)
    {
      found := token in store;
      store := store - {token};
    }

    method GetStats() returns (stats: QueueStats)
      requires Valid()
      ensures stats.total == |accepted|
      ensures stats == QueueStats(|jobs|, |delivered| - |signalled|, CountAccepted(signalled),
                                  |signalled| - CountAccepted(signalled), |accepted|)
    {
      stats := QueueStats(inQueue, processing, completed, failed, inQueue + processing + completed + failed);
    }

    /** The counter updates of `SignalCompleted`. */
    method CountOutcome(job: SubmissionJob)
      requires Valid()
      modifies this`processing, this`completed, this`failed, this`signalled
      ensures Valid() && signalled == old(signalled) + [job.status]
    {
      processing := processing - 1;
      var status := job.GetStatus();
      if status == ACCEPTED {
        completed := completed + 1;
      } else {
        failed := failed + 1;
      }
      signalled := signalled + [status];
      assert signalled[..|signalled| - 1] == old(signalled);
    }

    /** Publishes a copy of the job and tells the listener of the token, if there is one. */
    method SignalCompleted(token: string, job: SubmissionJob)
      requires Valid()
      modifies this, if token in listeners then {listeners[token]} else {}
      ensures Valid() && accepted == old(accepted) && delivered == old(delivered) && closed == old(closed)
      ensures signalled == old(signalled) + [job.status]
      ensures token in store && fresh(store[token]) && store[token].View() == job.View()
      ensures store == old(store)[token := store[token]]
      ensures listeners == old(listeners) - {token}
      ensures token in old(listeners) ==>
        var ch := old(listeners)[token];
        && ch.closed
        && ch.buffer == if old(ch.buffer) == [] then [store[token]] else old(ch.buffer)
      ensures job.View() == old(job.View())
    {
      CountOutcome(job);
      var snap := job.Snapshot();
      store := store[token := snap];
      if token in listeners {
        var ch := listeners[token];
        listeners := listeners - {token};
        ch.Deliver(snap);
      }
    }

    /** What a waiting call does when nobody else runs before its timer or its context ends: it
        registers in vain, cleans up after itself and returns what the store holds, or nothing if
        it was cancelled before the job was finished. */
    method WaitForResult(token: string, cancelled: bool) returns (job: SubmissionJob?)
      requires Valid()
      modifies this`listeners
      ensures Valid()
      ensures var done := token in store && Finished(store[token].View());
        && (job == null <==> token !in store || (cancelled && !done))
        && listeners == if done then old(listeners) else old(listeners) - {token}
      ensures job != null ==> fresh(job) && job.View() == store[token].View()
    {
      job := GetSubmission(token);
      if job != null {
        var done := job.IsFinished();
        if done { return job; }
      }
      var ch := new ResultChannel();
      listeners := listeners[token := ch];
      job := GetSubmission(token);
      if job != null {
        var done := job.IsFinished();
        if done {
          listeners := listeners - {token};
          return job;
        }
      }
      if |ch.buffer| > 0 {
        return ch.buffer[0];
      }
      listeners := listeners - {token};
      if cancelled {
        return null;
      }
      job := GetSubmission(token);
    }

    /** Removes exactly the expired entries; queued and processing jobs are never touched. */
    method CleanupExpired(now: int)
      requires Valid()
      modifies this`store
      ensures Valid()
      ensures forall token | token in old(store) && !Finished(old(store)[token].View()) :: token in store
      ensures store ==
        map token | token in old(store) && !Expired(old(store)[token].View(), now, ttl) :: old(store)[token]
    {
      ghost var before := store;
      var todo := store.Keys;
      while todo != {}
        invariant Valid() && todo <= before.Keys
        invariant store == map token |
          token in before && (token in todo || !Expired(before[token].View(), now, ttl)) :: before[token]
        decreases |todo|
      {
        var key :| key in todo;
        var job := store[key];
        var done := job.IsFinished();
        if done {
          match job.output.finishedAt
          case Some(At(seconds)) =>
            if now - seconds * NANOS_PER_SECOND > ttl {
              store := store - {key};
            }
          case _ =>
        }
        todo := todo - {key};
      }
    }

    method Close()
      requires Valid()
      modifies this`closed
      ensures Valid() && closed
    {
      closed := true;
    }
  }

  /** The section under the job's lock that writes an executor's result and checks the expected
      output a second time. */
  method RecordResult(job: SubmissionJob, r: ExecutionResult, now: int)
    modifies job
    ensures job.View() == old(job.View()).(
      status := SecondCheck(r, job.request),
      output := Output(Some(Format(now)), r.stdout, r.stderr, r.compileOutput, r.message, r.time, r.wallTime,
                       r.memory, r.exitCode, r.exitSignal))
  {
    job.status := r.status;
    job.output := Output(Some(Format(now)), r.stdout, r.stderr, r.compileOutput, r.message, r.time, r.wallTime,
                         r.memory, r.exitCode, r.exitSignal);
    if job.request.expectedOutput != "" && job.status == ACCEPTED {
      var actual := "";
      if job.output.stdout.Some? {
        actual := job.output.stdout.value;
      }
      var same := Compare.CompareOutput(actual, job.request.expectedOutput);
      if !same {
        job.status := WRONG_ANSWER;
      }
    }
  }

  /** `processJob` and `finalizeJob`: one write of the result, then one signal, on every path. */
  method ProcessJob(queue: MemoryQueue, job: SubmissionJob, outcome: Outcome, now: int)
    requires queue.Valid()
    modifies queue, job, if job.token in queue.listeners then {queue.listeners[job.token]} else {}
    ensures queue.Valid() && queue.accepted == old(queue.accepted) && queue.delivered == old(queue.delivered)
    ensures job.View() == FinishedJob(old(job.View()), outcome, now)
    ensures queue.signalled == old(queue.signalled) + [job.status]
    ensures job.token in queue.store && queue.store[job.token] != job
    ensures queue.store[job.token].View() == job.View()
    ensures queue.store == old(queue.store)[job.token := queue.store[job.token]] && fresh(queue.store[job.token])
    // the listener
    ensures queue.closed == old(queue.closed) && queue.listeners == old(queue.listeners) - {job.token}
    ensures job.token in old(queue.listeners) ==>
      var ch := old(queue.listeners)[job.token];
      ch.closed && ch.buffer == if old(ch.buffer) == [] then [queue.store[job.token]] else old(ch.buffer)
    // the result
    ensures job.output.finishedAt == Some(Format(now))
    ensures outcome.Rejected? ==>
      job.status == COMPILATION_ERROR && job.output.compileOutput == Some("Rejected: " + outcome.reason)
    ensures outcome.Broken? ==> job.status == INTERNAL_ERROR && job.output.message == Some(outcome.error)
    ensures outcome.Uncompilable? ==>
      && job.status == COMPILATION_ERROR && job.output.compileOutput == Some(outcome.compileOutput)
      && job.output.exitCode == outcome.exit
    ensures outcome.Ran? ==>
      var r := Parsed(outcome.raw, job.request);
      && job.status == r.status
      && job.output == Output(Some(Format(now)), r.stdout, r.stderr, r.compileOutput, r.message, r.time, r.wallTime,
                              r.memory, r.exitCode, r.exitSignal)
  {
    job.SetStatus(PROCESSING);
    queue.UpdateSubmission(job);
    match outcome {
      case Rejected(reason) =>
        job.status := COMPILATION_ERROR;
        job.output := job.output.(compileOutput := Some("Rejected: " + reason), finishedAt := Some(Format(now)));
      case Broken(error) =>
        job.status := INTERNAL_ERROR;
        job.output := job.output.(message := Some(error), finishedAt := Some(Format(now)));
      case Uncompilable(_, _) =>
        RecordResult(job, ResultOf(outcome, job.request), now);
      case Ran(raw) =>
        var r := Parse(raw, job.request);
        SecondCheckIsRedundant(outcome, job.request);
        RecordResult(job, r, now);
    }
    queue.SignalCompleted(job.token, job);
  }

  // Eviction.

  /** A job finished at time `f` is evicted at time `now` exactly when its age exceeds the ttl by
      more than the part of a second that the recorded time has lost. */
  lemma EvictionExactly(job: Job, outcome: Outcome, f: int, now: int, ttl: int)
    ensures Expired(FinishedJob(job, outcome, f), now, ttl) <==> now - f > ttl - f % NANOS_PER_SECOND
  {
    WorkerFinishes(job, outcome, f);
  }

  /** So whatever is evicted finished more than `ttl` minus one second ago, and whatever finished
      more than `ttl` ago is evicted. */
  lemma EvictionBound(job: Job, outcome: Outcome, f: int, now: int, ttl: int)
    ensures Expired(FinishedJob(job, outcome, f), now, ttl) ==> now - f > ttl - NANOS_PER_SECOND
    ensures now - f > ttl ==> Expired(FinishedJob(job, outcome, f), now, ttl)
  {
    EvictionExactly(job, outcome, f, now, ttl);
  }
}
