/** What every atomic operation keeps about the listener channels, for any number of waiting
    calls per token. */
module ProtocolBells {
  import opened Wrappers
  import opened Protocol
  import opened ProtocolJobs
  import opened ProtocolStore

  /** A registered channel belongs to its token and has not been taken by any worker. */
  ghost predicate ListenersInv(bells: Bells) {
    forall token | token in bells.listeners ::
      && bells.listeners[token] < |bells.channels|
      && bells.channels[bells.listeners[token]].token == token
      && bells.channels[bells.listeners[token]].taker == None
  }

  /** Worker `p` holds channel `c`. */
  predicate HoldsChannel(p: WorkerPC, c: nat) {
    (p.Notifying? || p.Closing?) && p.ch == c
  }

  /** Nothing happens to a channel before a worker takes it; the worker that takes it sends one
      value and then closes it. */
  predicate ChannelOk(m: Memory, workers: seq<WorkerPC>, c: nat, ch: Listener) {
    && |ch.buffer| <= ch.puts
    && (forall r | r in ch.buffer :: r in m.snapshots && r < |m.heap| && m.heap[r].token == ch.token)
    && match ch.taker
       case None => ch.puts == 0 && ch.closes == 0
       case Some(i) =>
         && i < |workers|
         && if HoldsChannel(workers[i], c) then ch.closes == 0 && ch.puts == (if workers[i].Closing? then 1 else 0)
            else ch.puts == 1 && ch.closes == 1
  }

  ghost predicate ChannelsInv(m: Memory, workers: seq<WorkerPC>, channels: seq<Listener>) {
    forall c | 0 <= c < |channels| :: ChannelOk(m, workers, c, channels[c])
  }

  /** A worker that holds a channel is its taker, and the channel is for its job's token. */
  ghost predicate HoldersInv(m: Memory, workers: seq<WorkerPC>, channels: seq<Listener>) {
    forall i | 0 <= i < |workers| && (workers[i].Notifying? || workers[i].Closing?) ::
      && workers[i].ch < |channels| && channels[workers[i].ch].taker == Some(i)
      && workers[i].job < |m.heap| && m.heap[workers[i].job].token == channels[workers[i].ch].token
  }

  predicate HasChannel(p: ReaderPC) {
    p.SecondLoad? || p.SecondLook? || p.Leaving? || p.Blocked? || p.GivenUp?
  }

  /** A waiting call owns its channel and has received nothing from it. */
  ghost predicate WaitersInv(readers: seq<Reader>, channels: seq<Listener>) {
    forall w | 0 <= w < |readers| && HasChannel(readers[w].pc) ::
      var c := readers[w].pc.ch;
      && c < |channels| && channels[c].owner == w && channels[c].token == readers[w].token
      && |channels[c].buffer| == channels[c].puts
  }

  ghost predicate Bell(m: Memory, workers: seq<WorkerPC>, bells: Bells) {
    && ListenersInv(bells)
    && ChannelsInv(m, workers, bells.channels)
    && HoldersInv(m, workers, bells.channels)
    && WaitersInv(bells.readers, bells.channels)
  }

  ghost predicate BellInv(s: State) {
    Bell(s.memory, s.crew.workers, s.bells)
  }

  lemma BellGrows(
    m: Memory, calls: map<nat, CallPC>, m': Memory, calls': map<nat, CallPC>, workers: seq<WorkerPC>, bells: Bells)
    requires Grows(m, calls, m', calls') && Bell(m, workers, bells)
    ensures Bell(m', workers, bells)
  {
  }

  /** A worker without a channel moves on and still holds none. */
  lemma MoveKeepsBell(m: Memory, workers: seq<WorkerPC>, bells: Bells, i: nat, p: WorkerPC)
    requires Bell(m, workers, bells) && i < |workers|
    requires !workers[i].Notifying? && !workers[i].Closing? && !p.Notifying? && !p.Closing?
    ensures Bell(m, workers[i := p], bells)
  {
  }

  lemma TakeKeepsBell(m: Memory, workers: seq<WorkerPC>, bells: Bells, i: nat, j: nat, snap: nat)
    requires Bell(m, workers, bells) && i < |workers| && workers[i] == Published(j, snap)
    requires j < |m.heap| && Listening(bells, m.heap[j].token)
    ensures var token := m.heap[j].token;
      Bell(m, workers[i := Notifying(j, snap, bells.listeners[token])], TakeListener(bells, token, i))
  {
  }

  lemma TakeNothing(m: Memory, workers: seq<WorkerPC>, bells: Bells, token: string, i: nat)
    requires Bell(m, workers, bells) && !Listening(bells, token)
    ensures Bell(m, workers, TakeListener(bells, token, i))
  {
  }

  lemma SendKeepsBell(m: Memory, workers: seq<WorkerPC>, bells: Bells, i: nat)
    requires Bell(m, workers, bells) && i < |workers| && workers[i].Notifying?
    requires workers[i].snap in m.snapshots && workers[i].snap < |m.heap|
    requires workers[i].job < |m.heap| && m.heap[workers[i].snap].token == m.heap[workers[i].job].token
    ensures workers[i].ch < |bells.channels|
    ensures var p := workers[i]; Bell(m, workers[i := Closing(p.job, p.ch)], SendOn(bells, p.ch, p.snap))
  {
  }

  lemma CloseKeepsBell(m: Memory, workers: seq<WorkerPC>, bells: Bells, i: nat)
    requires Bell(m, workers, bells) && i < |workers| && workers[i].Closing?
    ensures workers[i].ch < |bells.channels|
    ensures Bell(m, workers[i := Idle], CloseChannel(bells, workers[i].ch))
  {
  }

  lemma RegisterKeepsBell(m: Memory, workers: seq<WorkerPC>, bells: Bells, w: nat)
    requires Bell(m, workers, bells) && w < |bells.readers| && bells.readers[w].pc.Registering?
    ensures Bell(m, workers, Register(bells, w, SecondLoad(|bells.channels|)))
  {
  }

  lemma UnregisterKeepsBell(m: Memory, workers: seq<WorkerPC>, bells: Bells, w: nat, p: ReaderPC)
    requires Bell(m, workers, bells) && w < |bells.readers| && !HasChannel(p)
    ensures Bell(m, workers, Unregister(bells, w, p))
  {
  }

  lemma MoveReaderKeepsBell(m: Memory, workers: seq<WorkerPC>, bells: Bells, w: nat, p: ReaderPC)
    requires Bell(m, workers, bells) && w < |bells.readers|
    requires HasChannel(p) ==> HasChannel(bells.readers[w].pc) && p.ch == bells.readers[w].pc.ch
    ensures Bell(m, workers, Move(bells, w, p))
  {
  }

  lemma WakeKeepsBell(s: State, w: nat, p: ReaderPC)
    requires Bell(s.memory, s.crew.workers, s.bells) && w < |s.bells.readers| && s.bells.readers[w].pc.Blocked?
    requires !HasChannel(p)
    ensures s.bells.readers[w].pc.ch < |s.bells.channels|
    ensures Bell(s.memory, s.crew.workers, Wake(s, w, s.bells.readers[w].pc.ch, p))
  {
  }

  lemma WorkKeepsBell(s: State, i: nat)
    requires JobInv(s) && ShelfInv(s) && BellInv(s)
    requires i < |s.crew.workers| && WorkEnabled(s, s.crew.workers[i])
    ensures BellInv(DoWork(s, i))
  {
    hide JobInv, ShelfInv, Bell;
    var p := s.crew.workers[i];
    var s' := DoWork(s, i);
    WorkFrame(s, i);
    if p.Published? {
      var token := s.memory.heap[p.job].token;
      if Listening(s.bells, token) {
        TakeKeepsBell(s.memory, s.crew.workers, s.bells, i, p.job, p.snap);
      } else {
        TakeNothing(s.memory, s.crew.workers, s.bells, token, i);
        MoveKeepsBell(s.memory, s.crew.workers, s'.bells, i, Idle);
      }
    } else if p.Notifying? {
      CopiedToken(s, i);
      SendKeepsBell(s.memory, s.crew.workers, s.bells, i);
    } else if p.Closing? {
      CloseKeepsBell(s.memory, s.crew.workers, s.bells, i);
    } else {
      var next := s'.crew.workers[i];
      assert !next.Notifying? && !next.Closing? && s'.bells == s.bells;
      ShelfOfShelf(s);
      WorkGrows(s, i);
      BellGrows(s.memory, s.calls, s'.memory, s'.calls, s.crew.workers, s.bells);
      MoveKeepsBell(s'.memory, s.crew.workers, s.bells, i, next);
    }
  }

  lemma ShelfOfShelf(s: State)
    requires ShelfInv(s)
    ensures SnapshotInv(s.memory, s.calls)
  {
  }

  lemma CopiedToken(s: State, i: nat)
    requires JobInv(s) && ShelfInv(s) && i < |s.crew.workers| && s.crew.workers[i].Notifying?
    ensures var p := s.crew.workers[i];
      && p.job < |s.memory.heap| && p.snap < |s.memory.heap| && p.snap in s.memory.snapshots
      && s.memory.heap[p.snap].token == s.memory.heap[p.job].token
  {
  }

  lemma ReadKeepsBell(s: State, w: nat)
    requires BellInv(s) && w < |s.bells.readers| && ReadEnabled(s, s.bells.readers[w].pc)
    ensures BellInv(DoRead(s, w))
  {
    hide Bell;
    var p := s.bells.readers[w].pc;
    var next := NextRead(s, w);
    ReadFrame(s, w);
    if p.Registering? {
      RegisterKeepsBell(s.memory, s.crew.workers, s.bells, w);
    } else if p.Leaving? || p.GivenUp? {
      UnregisterKeepsBell(s.memory, s.crew.workers, s.bells, w, next);
    } else if p.Blocked? {
      WakeKeepsBell(s, w, next);
    } else {
      MoveReaderKeepsBell(s.memory, s.crew.workers, s.bells, w, next);
    }
  }

  lemma AskKeepsBell(s: State, token: string, waits: bool)
    requires BellInv(s)
    ensures BellInv(Do(s, Ask(token, waits)))
  {
  }

  lemma InitBells(s: State)
    requires Init(s)
    ensures BellInv(s)
  {
  }

  lemma StepKeepsBells(s: State, a: Action)
    requires JobInv(s) && ShelfInv(s) && BellInv(s) && Enabled(s, a)
    ensures BellInv(Do(s, a))
  {
    hide JobInv, ShelfInv, Bell, SnapshotInv, Grows, DoCall, DoWork, DoRead;
    var s' := Do(s, a);
    ShelfOfShelf(s);
    StepGrows(s, a);
    BellGrows(s.memory, s.calls, s'.memory, s'.calls, s.crew.workers, s.bells);
    match a
    case Work(i) => WorkKeepsBell(s, i);
    case Call(j, giveUp) => CallFrame(s, j, giveUp);
    case Read(w) => ReadKeepsBell(s, w);
    case Ask(token, waits) => AskKeepsBell(s, token, waits);
    case GiveUp(w, timer) =>
      MoveReaderKeepsBell(s.memory, s.crew.workers, s.bells, w, GivenUp(s.bells.readers[w].pc.ch, timer));
    case Receive(i) => MoveKeepsBell(s.memory, s.crew.workers, s.bells, i, Received(s.line.chan[0]));
    case Leave(i) => MoveKeepsBell(s.memory, s.crew.workers, s.bells, i, Left);
    case Finish(i, _) => MoveKeepsBell(s'.memory, s.crew.workers, s.bells, i, Finalising(s.crew.workers[i].job));
    case _ =>
  }

  /** What a blocked call can receive is a snapshot for its own token. */
  lemma ReceivesOwnToken(s: State, w: nat)
    requires ShelfInv(s) && BellInv(s) && w < |s.bells.readers|
    ensures Receivable(s, w)
  {
  }

  /** The invariant of the whole machine. */
  ghost predicate Inv(s: State) {
    JobInv(s) && ShelfInv(s) && BellInv(s)
  }

  lemma InitInv(s: State)
    requires Init(s)
    ensures Inv(s)
  {
    InitJobs(s);
    InitShelf(s);
    InitBells(s);
  }

  lemma StepKeepsInv(s: State, a: Action)
    requires Inv(s) && Enabled(s, a)
    ensures Inv(Do(s, a))
  {
    hide JobInv, ShelfInv, BellInv, Do;
    if a.Read? { ReceivesOwnToken(s, a.reader); }
    StepKeepsJobs(s, a);
    StepKeepsShelf(s, a);
    StepKeepsBells(s, a);
  }
}
