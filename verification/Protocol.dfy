/** The submission queue and its worker pool (pkg/queue/memory.go, pkg/queue/worker.go) as a
    state machine. One action is one atomic operation of the program: a channel send or
    receive, one `sync.Map` call, one atomic add, or one section under a job's lock. Every
    call and every worker has a program counter; all interleavings are runs. */
module Protocol {
  import opened Wrappers
  import opened Jobs

  /** Where one call of `Enqueue` stands. */
  datatype CallPC =
    | Checking             // about to load the closed flag
    | Setting              // about to set the status to In Queue
    | Storing              // about to store the job under its token
    | Sending              // about to select on the jobs channel
    | Counting             // job sent, inQueue not yet incremented
    | Admitted             // returned nil
    | Declined             // returned "queue is closed" before touching the job
    | Refused              // returned "queue buffer is full" or the context's error
    | Panicked             // sent on a closed channel

  /** Where one worker stands; `job` is the job it received last. */
  datatype WorkerPC =
    | Idle                                    // about to receive
    | Left                                    // returned from its loop
    | Received(job: nat)                      // about to decrement inQueue
    | Dequeued(job: nat)                      // about to increment processing
    | Holding(job: nat)                       // about to set the status to Processing
    | Marked(job: nat)                        // about to store the job again
    | Executing(job: nat)                     // about to write the result under the lock
    | Finalising(job: nat)                    // about to decrement processing
    | Released(job: nat)                      // about to read the status
    | Judged(job: nat, accepted: bool)        // about to add to completed or failed
    | Tallied(job: nat)                       // about to take the snapshot
    | Snapped(job: nat, snap: nat)            // about to store the snapshot
    | Published(job: nat, snap: nat)          // about to load and delete the listener
    | Notifying(job: nat, snap: nat, ch: nat) // about to send on the listener channel
    | Closing(job: nat, ch: nat)              // about to close the listener channel

  datatype Reply = Got(job: Job) | Missing | Cancelled | Nil

  /** Where one call of `WaitForResult` or `GetSubmission` stands. */
  datatype ReaderPC =
    | FirstLoad                       // about to load the store
    | FirstLook(ref: nat)             // about to take a snapshot of what was loaded
    | Registering                     // about to make a channel and store it as listener
    | SecondLoad(ch: nat)             // registered, about to load the store again
    | SecondLook(ch: nat, ref: nat)   // about to take a snapshot of what was loaded
    | Leaving(ch: nat, found: Job)    // about to delete the listener and return `found`
    | Blocked(ch: nat)                // in the select
    | GivenUp(ch: nat, timer: bool)   // woken by the timer or the context
    | LastLoad                        // about to load the store
    | LastLook(ref: nat)              // about to take a snapshot of what was loaded
    | Returned(reply: Reply)

  /** `clear` records that no other call was waiting for the token when this one began. */
  datatype Reader = Reader(token: string, waits: bool, clear: bool, pc: ReaderPC)

  /** A listener channel of capacity one. `puts` and `closes` count the operations on it;
      `owner` is the waiting call that made it, `taker` the worker that removed it from the
      listener map. */
  datatype Listener = Listener(
    token: string, owner: nat, taker: Option<nat>, buffer: seq<nat>, puts: nat, closes: nat)

  /** One snapshot that was handed out: the job it was taken from and its value. */
  datatype Sight = Sight(job: nat, value: Job)

  /** The jobs channel, with the log of what went in and came out. */
  datatype Line = Line(chan: seq<nat>, sent: seq<nat>, received: seq<nat>)

  /** The workers; `owner` records who received a job, `signalled` the jobs whose
      `SignalCompleted` has returned. */
  datatype Crew = Crew(workers: seq<WorkerPC>, owner: map<nat, nat>, signalled: set<nat>)

  /** Every `SubmissionJob` object, by reference. `verdict` records the final value a worker
      wrote into a job, `snapshots` the job each snapshot object was taken from. */
  datatype Memory = Memory(heap: seq<Job>, verdict: map<nat, Job>, snapshots: map<nat, nat>)

  /** Where the sweeper stands; `now` is the time at which its sweep began. */
  datatype SweeperPC =
    | Roaming                          // about to load the next entry
    | Visiting(key: string, ref: nat, now: int)  // about to look whether what was loaded is finished
    | Aging(key: string, ref: nat, now: int)     // about to read when it finished
    | Evicting(key: string, now: int)            // about to delete the entry

  /** The token-to-job map, the tokens ever removed from it, and the sweeper. */
  datatype Shelf = Shelf(store: map<string, nat>, removed: set<string>, sweeper: SweeperPC)

  /** The token-to-listener map, all listener channels and all reading calls. */
  datatype Bells = Bells(listeners: map<string, nat>, channels: seq<Listener>, readers: seq<Reader>)

  /** The atomic counters; `tallied` records the jobs counted as completed or failed. */
  datatype Stats = Stats(inQueue: int, processing: int, completed: int, failed: int, tallied: set<nat>)

  /** What the queue was made with, the closed flag, whether the jobs channel is closed, and whether
      the pool was stopped. */
  datatype Gate = Gate(capacity: nat, ttl: int, closed: bool, shut: bool, stopped: bool)

  datatype State = State(
    gate: Gate,
    calls: map<nat, CallPC>,       // Enqueue calls, by the job they submit
    line: Line,
    crew: Crew,
    memory: Memory,
    shelf: Shelf,
    bells: Bells,
    stats: Stats,
    seen: seq<Sight>)              // every snapshot handed out so far

  predicate Init(s: State) {
    && s.gate.capacity > 0 && !s.gate.closed && !s.gate.shut && !s.gate.stopped
    && s.calls == map[] && s.line == Line([], [], [])
    && (forall i | 0 <= i < |s.crew.workers| :: s.crew.workers[i] == Idle)
    && s.crew.owner == map[] && s.crew.signalled == {}
    && s.memory == Memory([], map[], map[])
    && s.shelf == Shelf(map[], {}, Roaming)
    && s.bells == Bells(map[], [], [])
    && s.stats == Stats(0, 0, 0, 0, {})
    && s.seen == []
  }

  datatype Action =
    | Submit(job: Job)                          // build a job with a fresh token, call Enqueue
    | Call(j: nat, giveUp: bool)                // next operation of an Enqueue call
    | Receive(worker: nat)
    | Leave(worker: nat)                        // a worker sees that the pool was stopped
    | Finish(worker: nat, final: Job)           // executor result, arbitrary
    | Work(worker: nat)                         // next operation of a worker
    | Ask(token: string, waits: bool)           // call WaitForResult or GetSubmission
    | Read(reader: nat)                         // next operation of such a call
    | GiveUp(reader: nat, timer: bool)          // timer or context fires in the select
    | Delete(token: string)                     // DeleteSubmission
    | SweepLoad(token: string, now: int)        // the sweeper's next entry
    | SweepLook
    | SweepAge
    | SweepDelete
    | Stop                                      // cancel the pool's context
    | CloseFlag                                 // Close: set the flag
    | CloseJobs                                 // Close: close the jobs channel

  predicate Busy(p: WorkerPC) {
    !p.Idle? && !p.Left?
  }

  predicate Running(c: CallPC) {
    !c.Admitted? && !c.Declined? && !c.Refused? && !c.Panicked?
  }

  predicate Enabled(s: State, a: Action) {
    match a
    case Submit(job) =>
      job.output == NO_OUTPUT && (forall r | 0 <= r < |s.memory.heap| :: s.memory.heap[r].token != job.token)
    case Call(j, giveUp) =>
      j in s.calls && j < |s.memory.heap| && Running(s.calls[j]) && (giveUp ==> s.calls[j].Sending?)
    case Receive(i) => i < |s.crew.workers| && s.crew.workers[i].Idle? && |s.line.chan| > 0
    case Leave(i) => i < |s.crew.workers| && s.crew.workers[i].Idle? && s.gate.stopped
    case Finish(i, final) =>
      && i < |s.crew.workers| && s.crew.workers[i].Executing? && s.crew.workers[i].job < |s.memory.heap|
      && FinalFor(s.memory.heap[s.crew.workers[i].job], final)
    case Work(i) => i < |s.crew.workers| && WorkEnabled(s, s.crew.workers[i])
    case Ask(_, _) => true
    case Read(w) => w < |s.bells.readers| && ReadEnabled(s, s.bells.readers[w].pc)
    case GiveUp(w, _) => w < |s.bells.readers| && s.bells.readers[w].pc.Blocked?
    case Delete(token) => token in s.shelf.store
    case SweepLoad(token, _) => s.shelf.sweeper.Roaming? && token in s.shelf.store
    case SweepLook => s.shelf.sweeper.Visiting? && s.shelf.sweeper.ref < |s.memory.heap|
    case SweepAge => s.shelf.sweeper.Aging? && s.shelf.sweeper.ref < |s.memory.heap|
    case SweepDelete => s.shelf.sweeper.Evicting?
    case Stop => true
    case CloseFlag => !s.gate.closed
    case CloseJobs => s.gate.closed && !s.gate.shut
  }

  predicate WorkEnabled(s: State, p: WorkerPC) {
    && Busy(p) && !p.Executing? && p.job < |s.memory.heap|
    && (p.Notifying? || p.Closing? ==> p.ch < |s.bells.channels|)
  }

  /** A call blocked in the select goes on only when its channel holds a value or is closed. */
  predicate ReadEnabled(s: State, p: ReaderPC) {
    match p
    case FirstLook(r) => r < |s.memory.heap|
    case SecondLook(_, r) => r < |s.memory.heap|
    case LastLook(r) => r < |s.memory.heap|
    case Blocked(c) => c < |s.bells.channels| && (|s.bells.channels[c].buffer| > 0 || s.bells.channels[c].closes > 0)
    case Returned(_) => false
    case _ => true
  }

  function Do(s: State, a: Action): State
    requires Enabled(s, a)
  {
    match a
    case Submit(job) =>
      s.(memory := s.memory.(heap := s.memory.heap + [job]), calls := s.calls[|s.memory.heap| := Checking])
    case Call(j, giveUp) => DoCall(s, j, giveUp)
    case Receive(i) =>
      var j := s.line.chan[0];
      s.(line := Line(s.line.chan[1..], s.line.sent, s.line.received + [j]),
         crew := Crew(s.crew.workers[i := Received(j)], s.crew.owner[j := i], s.crew.signalled))
    case Leave(i) => s.(crew := Advance(s.crew, i, Left))
    case Finish(i, final) =>
      var j := s.crew.workers[i].job;
      s.(memory := Memory(s.memory.heap[j := final], s.memory.verdict[j := final], s.memory.snapshots),
         crew := Advance(s.crew, i, Finalising(j)))
    case Work(i) => DoWork(s, i)
    case Ask(token, waits) =>
      s.(bells := s.bells.(readers := s.bells.readers + [NewReader(s.bells.readers, token, waits)]))
    case Read(w) => DoRead(s, w)
    case GiveUp(w, timer) => s.(bells := Move(s.bells, w, GivenUp(s.bells.readers[w].pc.ch, timer)))
    case Delete(token) => s.(shelf := Remove(s.shelf, token))
    case SweepLoad(token, now) => s.(shelf := s.shelf.(sweeper := Visiting(token, s.shelf.store[token], now)))
    case SweepLook =>
      var p := s.shelf.sweeper;
      s.(shelf := s.shelf.(sweeper := if Finished(s.memory.heap[p.ref]) then Aging(p.key, p.ref, p.now) else Roaming))
    case SweepAge =>
      var p := s.shelf.sweeper;
      var expired := Expired(s.memory.heap[p.ref], p.now, s.gate.ttl);
      s.(shelf := s.shelf.(sweeper := if expired then Evicting(p.key, p.now) else Roaming))
    case SweepDelete => s.(shelf := Remove(s.shelf, s.shelf.sweeper.key).(sweeper := Roaming))
    case Stop => s.(gate := s.gate.(stopped := true))
    case CloseFlag => s.(gate := s.gate.(closed := true))
    case CloseJobs => s.(gate := s.gate.(shut := true))
  }

  /** A call that waits for a token. */
  predicate Waits(r: Reader, token: string) {
    r.waits && r.token == token && !r.pc.Returned?
  }

  function NewReader(readers: seq<Reader>, token: string, waits: bool): Reader {
    Reader(token, waits, forall r | r in readers :: !Waits(r, token), if waits then FirstLoad else LastLoad)
  }

  function Advance(crew: Crew, i: nat, p: WorkerPC): Crew
    requires i < |crew.workers|
  {
    crew.(workers := crew.workers[i := p])
  }

  /** Worker `i` returns from `SignalCompleted` for job `j`. */
  function Complete(crew: Crew, i: nat, j: nat): Crew
    requires i < |crew.workers|
  {
    crew.(workers := crew.workers[i := Idle], signalled := crew.signalled + {j})
  }

  function SetStatus(memory: Memory, j: nat, status: int): Memory
    requires j < |memory.heap|
  {
    memory.(heap := memory.heap[j := memory.heap[j].(status := status)])
  }

  function Put(shelf: Shelf, token: string, r: nat): Shelf {
    shelf.(store := shelf.store[token := r])
  }

  function Remove(shelf: Shelf, token: string): Shelf {
    shelf.(store := shelf.store - {token}, removed := shelf.removed + {token})
  }

  function DoCall(s: State, j: nat, giveUp: bool): State
    requires j in s.calls && j < |s.memory.heap| && Running(s.calls[j])
  {
    match s.calls[j]
    case Checking => s.(calls := s.calls[j := if s.gate.closed then Declined else Setting])
    case Setting => s.(memory := SetStatus(s.memory, j, IN_QUEUE), calls := s.calls[j := Storing])
    case Storing => s.(shelf := Put(s.shelf, s.memory.heap[j].token, j), calls := s.calls[j := Sending])
    case Sending =>
      // a send on a closed channel panics; on a full one the default branch is taken
      var sends := !giveUp && !s.gate.shut && |s.line.chan| < s.gate.capacity;
      s.(line := if sends then Line(s.line.chan + [j], s.line.sent + [j], s.line.received) else s.line,
         calls := s.calls[j := if sends then Counting else if !giveUp && s.gate.shut then Panicked else Refused])
    case Counting =>
      s.(stats := s.stats.(inQueue := s.stats.inQueue + 1), calls := s.calls[j := Admitted])
  }

  predicate Listening(bells: Bells, token: string) {
    token in bells.listeners && bells.listeners[token] < |bells.channels|
  }

  /** Load and delete the listener of `token`; worker `i` now holds its channel, if there is one. */
  function TakeListener(bells: Bells, token: string, i: nat): Bells {
    bells.(listeners := bells.listeners - {token},
           channels := if !Listening(bells, token) then bells.channels
                       else var c := bells.listeners[token];
                            bells.channels[c := bells.channels[c].(taker := Some(i))])
  }

  /** Select with a default branch: a full channel drops the value. */
  function Offer(c: Listener, r: nat): Listener {
    if |c.buffer| < 1 then c.(buffer := [r], puts := c.puts + 1) else c
  }

  function SendOn(bells: Bells, c: nat, r: nat): Bells
    requires c < |bells.channels|
  {
    bells.(channels := bells.channels[c := Offer(bells.channels[c], r)])
  }

  function CloseChannel(bells: Bells, c: nat): Bells
    requires c < |bells.channels|
  {
    bells.(channels := bells.channels[c := bells.channels[c].(closes := bells.channels[c].closes + 1)])
  }

  function Tally(stats: Stats, j: nat, accepted: bool): Stats {
    stats.(completed := stats.completed + (if accepted then 1 else 0),
           failed := stats.failed + (if accepted then 0 else 1),
           tallied := stats.tallied + {j})
  }

  function DoWork(s: State, i: nat): State
    requires i < |s.crew.workers| && WorkEnabled(s, s.crew.workers[i])
  {
    match s.crew.workers[i]
    case Received(j) =>
      s.(stats := s.stats.(inQueue := s.stats.inQueue - 1), crew := Advance(s.crew, i, Dequeued(j)))
    case Dequeued(j) =>
      s.(stats := s.stats.(processing := s.stats.processing + 1), crew := Advance(s.crew, i, Holding(j)))
    case Holding(j) => s.(memory := SetStatus(s.memory, j, PROCESSING), crew := Advance(s.crew, i, Marked(j)))
    case Marked(j) =>
      s.(shelf := Put(s.shelf, s.memory.heap[j].token, j), crew := Advance(s.crew, i, Executing(j)))
    case Finalising(j) =>
      s.(stats := s.stats.(processing := s.stats.processing - 1), crew := Advance(s.crew, i, Released(j)))
    case Released(j) => s.(crew := Advance(s.crew, i, Judged(j, s.memory.heap[j].status == ACCEPTED)))
    case Judged(j, accepted) => s.(stats := Tally(s.stats, j, accepted), crew := Advance(s.crew, i, Tallied(j)))
    case Tallied(j) =>
      var snap := |s.memory.heap|;
      s.(memory := Memory(s.memory.heap + [s.memory.heap[j]], s.memory.verdict, s.memory.snapshots[snap := j]),
         crew := Advance(s.crew, i, Snapped(j, snap)))
    case Snapped(j, snap) =>
      s.(shelf := Put(s.shelf, s.memory.heap[j].token, snap), crew := Advance(s.crew, i, Published(j, snap)))
    case Published(j, snap) =>
      var token := s.memory.heap[j].token;
      s.(bells := TakeListener(s.bells, token, i),
         crew := if Listening(s.bells, token) then Advance(s.crew, i, Notifying(j, snap, s.bells.listeners[token]))
                 else Complete(s.crew, i, j))
    case Notifying(j, snap, c) => s.(bells := SendOn(s.bells, c, snap), crew := Advance(s.crew, i, Closing(j, c)))
    case Closing(j, c) => s.(bells := CloseChannel(s.bells, c), crew := Complete(s.crew, i, j))
  }

  /** Reader `w` moves to `p`. */
  function Move(bells: Bells, w: nat, p: ReaderPC): Bells
    requires w < |bells.readers|
  {
    bells.(readers := bells.readers[w := bells.readers[w].(pc := p)])
  }

  /** Reader `w` makes a channel, registers it as the listener of its token and moves to `p`. */
  function Register(bells: Bells, w: nat, p: ReaderPC): Bells
    requires w < |bells.readers|
  {
    var token := bells.readers[w].token;
    Bells(bells.listeners[token := |bells.channels|],
          bells.channels + [Listener(token, w, None, [], 0, 0)],
          bells.readers[w := bells.readers[w].(pc := p)])
  }

  /** Reader `w` deletes whatever listener its token has and moves to `p`. */
  function Unregister(bells: Bells, w: nat, p: ReaderPC): Bells
    requires w < |bells.readers|
  {
    Bells(bells.listeners - {bells.readers[w].token}, bells.channels,
          bells.readers[w := bells.readers[w].(pc := p)])
  }

  /** Reader `w` receives from channel `c` and moves to `p`. */
  function Wake(s: State, w: nat, c: nat, p: ReaderPC): Bells
    requires w < |s.bells.readers| && c < |s.bells.channels|
  {
    var channels := s.bells.channels;
    Bells(s.bells.listeners,
          if Delivers(s, c) then channels[c := channels[c].(buffer := channels[c].buffer[1..])] else channels,
          s.bells.readers[w := s.bells.readers[w].(pc := p)])
  }

  predicate Delivers(s: State, c: nat) {
    c < |s.bells.channels| && |s.bells.channels[c].buffer| > 0 && s.bells.channels[c].buffer[0] < |s.memory.heap|
  }

  /** The history after a snapshot of the object at `r` was handed out. */
  function Witness(s: State, r: nat): seq<Sight>
    requires r < |s.memory.heap|
  {
    s.seen + [Sight(if r in s.memory.snapshots then s.memory.snapshots[r] else r, s.memory.heap[r])]
  }

  /** Where reader `w` goes next. From a channel it gets a job, or nil when the channel is closed
      and empty. */
  function NextRead(s: State, w: nat): ReaderPC
    requires w < |s.bells.readers| && ReadEnabled(s, s.bells.readers[w].pc)
  {
    var token, store, heap := s.bells.readers[w].token, s.shelf.store, s.memory.heap;
    match s.bells.readers[w].pc
    case FirstLoad => if token in store then FirstLook(store[token]) else Registering
    case FirstLook(r) => if Finished(heap[r]) then Returned(Got(heap[r])) else Registering
    case Registering => SecondLoad(|s.bells.channels|)
    case SecondLoad(c) => if token in store then SecondLook(c, store[token]) else Blocked(c)
    case SecondLook(c, r) => if Finished(heap[r]) then Leaving(c, heap[r]) else Blocked(c)
    case Leaving(_, job) => Returned(Got(job))
    case Blocked(c) => Returned(if Delivers(s, c) then Got(heap[s.bells.channels[c].buffer[0]]) else Nil)
    case GivenUp(_, timer) => if timer then LastLoad else Returned(Cancelled)
    case LastLoad => if token in store then LastLook(store[token]) else Returned(Missing)
    case LastLook(r) => Returned(Got(heap[r]))
  }

  /** What its step does to the listeners. */
  function ReadBells(s: State, w: nat): Bells
    requires w < |s.bells.readers| && ReadEnabled(s, s.bells.readers[w].pc)
  {
    match s.bells.readers[w].pc
    case Registering => Register(s.bells, w, NextRead(s, w))
    case Leaving(_, _) => Unregister(s.bells, w, NextRead(s, w))
    case GivenUp(_, _) => Unregister(s.bells, w, NextRead(s, w))
    case Blocked(c) => Wake(s, w, c, NextRead(s, w))
    case _ => Move(s.bells, w, NextRead(s, w))
  }

  /** And which snapshot it hands out. */
  function ReadSeen(s: State, w: nat): seq<Sight>
    requires w < |s.bells.readers| && ReadEnabled(s, s.bells.readers[w].pc)
  {
    match s.bells.readers[w].pc
    case FirstLook(r) => Witness(s, r)
    case SecondLook(_, r) => Witness(s, r)
    case LastLook(r) => Witness(s, r)
    case Blocked(c) => if Delivers(s, c) then Witness(s, s.bells.channels[c].buffer[0]) else s.seen
    case _ => s.seen
  }

  function DoRead(s: State, w: nat): State
    requires w < |s.bells.readers| && ReadEnabled(s, s.bells.readers[w].pc)
  {
    s.(bells := ReadBells(s, w), seen := ReadSeen(s, w))
  }

  ghost predicate Next(s: State, s': State) {
    exists a :: Enabled(s, a) && s' == Do(s, a)
  }

  /** A run from the start, one action after another. */
  ghost predicate Run(tr: seq<State>) {
    && |tr| > 0
    && Init(tr[0])
    && forall k | 0 <= k < |tr| - 1 :: Next(tr[k], tr[k + 1])
  }
}
