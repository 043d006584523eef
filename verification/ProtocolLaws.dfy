/** What single steps of the queue come to over runs: the bound of the channel, when a call is
    admitted, what happens to the store, and what a reading call makes of what it finds. */
module ProtocolLaws {
  import opened Jobs
  import opened Protocol
  import opened ProtocolJobs
  import opened ProtocolStore
  import opened ProtocolRuns

  // The gate.

  /** Nothing is reopened, and the bound of the channel never changes. */
  lemma GateExactly(s: State, a: Action)
    requires Enabled(s, a)
    ensures var g := s.gate;
      Do(s, a).gate == Gate(g.capacity, g.ttl, g.closed || a.CloseFlag?, g.shut || a.CloseJobs?, g.stopped || a.Stop?)
  {
    hide DoCall, DoWork, DoRead;
    if a.Call? { CallFrame(s, a.j, a.giveUp); }
    if a.Work? { WorkFrame(s, a.worker); }
    if a.Read? { ReadFrame(s, a.reader); }
  }

  // The channel.

  lemma LineExactly(s: State, a: Action)
    requires Enabled(s, a)
    ensures var chan, chan' := s.line.chan, Do(s, a).line.chan;
      || chan' == chan
      || (a.Receive? && chan != [] && chan' == chan[1..])
      || (a.Call? && !a.giveUp && s.calls[a.j].Sending? && |chan| < s.gate.capacity && chan' == chan + [a.j])
  {
    hide DoWork, DoRead;
    if a.Work? { WorkFrame(s, a.worker); }
    if a.Read? { ReadFrame(s, a.reader); }
  }

  /** The jobs channel never holds more than its capacity. */
  lemma {:induction false} ChannelBounded(tr: seq<State>, k: nat)
    requires Run(tr) && k < |tr|
    ensures |tr[k].line.chan| <= tr[k].gate.capacity && tr[k].gate.capacity == tr[0].gate.capacity
  {
    hide Do, Enabled;
    if k > 0 {
      ChannelBounded(tr, k - 1);
      assert Next(tr[k - 1], tr[k - 1 + 1]);
      var a :| Enabled(tr[k - 1], a) && tr[k] == Do(tr[k - 1], a);
      GateExactly(tr[k - 1], a);
      LineExactly(tr[k - 1], a);
    }
  }

  /** Which way the select of `Enqueue` goes: a job is sent exactly if the channel is open and has
      room and the context's case is not taken; it is refused without that case only if the channel is
      open and holds exactly its capacity. */
  lemma SendExactly(tr: seq<State>, k: nat, j: nat, giveUp: bool)
    requires Run(tr) && k < |tr| && Enabled(tr[k], Call(j, giveUp)) && tr[k].calls[j].Sending?
    ensures var s, s' := tr[k], Do(tr[k], Call(j, giveUp));
      && j in s'.calls
      && (s'.calls[j].Counting? <==> !giveUp && !s.gate.shut && |s.line.chan| < s.gate.capacity)
      && (s'.calls[j].Panicked? <==> !giveUp && s.gate.shut)
      && (s'.calls[j].Refused? <==> giveUp || (!s.gate.shut && |s.line.chan| == s.gate.capacity))
      && s'.line.chan == (if s'.calls[j].Counting? then s.line.chan + [j] else s.line.chan)
  {
    ChannelBounded(tr, k);
  }

  /** A call is declined exactly if it finds the queue closed, and then it has touched nothing: its
      job is neither sent nor stored. */
  lemma CheckExactly(tr: seq<State>, k: nat, j: nat)
    requires Run(tr) && k < |tr| && Enabled(tr[k], Call(j, false)) && tr[k].calls[j].Checking?
    ensures var s' := Do(tr[k], Call(j, false));
      && s' == tr[k].(calls := s'.calls) && j in s'.calls
      && (s'.calls[j].Declined? <==> tr[k].gate.closed) && (s'.calls[j].Setting? <==> !tr[k].gate.closed)
  {
  }

  lemma DeclinedIsNowhere(tr: seq<State>, k: nat, j: nat)
    requires Run(tr) && k < |tr| && j in tr[k].calls && tr[k].calls[j].Declined?
    ensures j !in tr[k].line.sent && forall token | token in tr[k].shelf.store :: tr[k].shelf.store[token] != j
  {
    hide AllInv, JobInv, ShelfInv;
    RunKeepsAll(tr, k);
    AllParts(tr[k]);
    OnlyStoredOrSent(tr[k]);
  }

  /** Whatever was sent was submitted and accepted; whatever is stored was submitted and stored, or
      is a snapshot. */
  lemma OnlyStoredOrSent(s: State)
    requires JobInv(s) && ShelfInv(s)
    ensures forall j | j in s.line.sent :: j in s.calls && Accepted(s.calls[j])
    ensures forall token | token in s.shelf.store && s.shelf.store[token] in s.calls ::
      Stored(s.calls[s.shelf.store[token]])
  {
    hide Ownership, Untouched, InProgress, Settled, CopyInv, LoadedInv, SeenInv, EntryInv, Holds;
  }

  // The store.

  /** What is removed from the store by an action. */
  function Removes(s: State, a: Action): set<string>
    requires Enabled(s, a)
  {
    if a.Delete? then {a.token} else if a.SweepDelete? then {s.shelf.sweeper.key} else {}
  }

  /** What an action stores: the submitted job, the same job again when a worker starts on it, and
      at last its snapshot. */
  function Stores(s: State, a: Action): map<string, nat>
    requires Enabled(s, a)
  {
    if a.Call? && s.calls[a.j].Storing? then map[s.memory.heap[a.j].token := a.j]
    else if a.Work? && s.crew.workers[a.worker].Marked? then
      map[s.memory.heap[s.crew.workers[a.worker].job].token := s.crew.workers[a.worker].job]
    else if a.Work? && s.crew.workers[a.worker].Snapped? then
      map[s.memory.heap[s.crew.workers[a.worker].job].token := s.crew.workers[a.worker].snap]
    else map[]
  }

  /** Every change of the store: a deletion takes away exactly its token, and a deletion before the
      worker starts, or before it publishes, is undone. */
  lemma StoreExactly(s: State, a: Action)
    requires Enabled(s, a)
    ensures Do(s, a).shelf.store == s.shelf.store - Removes(s, a) + Stores(s, a)
    ensures Do(s, a).shelf.removed == s.shelf.removed + Removes(s, a)
  {
    if a.Call? {
      CallStoresOne(s, a.j, a.giveUp);
    } else if a.Work? {
      WorkStoresOne(s, a.worker);
    } else if a.Read? {
      ReadFrame(s, a.reader);
    }
    hide DoCall, DoWork, DoRead;
    assert s.shelf.store - {} == s.shelf.store && s.shelf.removed + {} == s.shelf.removed;
  }

  lemma CallStoresOne(s: State, j: nat, giveUp: bool)
    requires j in s.calls && j < |s.memory.heap| && Running(s.calls[j])
    ensures DoCall(s, j, giveUp).shelf.removed == s.shelf.removed
    ensures DoCall(s, j, giveUp).shelf.store ==
      s.shelf.store + if s.calls[j].Storing? then map[s.memory.heap[j].token := j] else map[]
  {
  }

  lemma WorkStoresOne(s: State, i: nat)
    requires i < |s.crew.workers| && WorkEnabled(s, s.crew.workers[i])
    ensures DoWork(s, i).shelf.removed == s.shelf.removed
    ensures var p := s.crew.workers[i];
      DoWork(s, i).shelf.store == s.shelf.store +
        if p.Marked? then map[s.memory.heap[p.job].token := p.job]
        else if p.Snapped? then map[s.memory.heap[p.job].token := p.snap]
        else map[]
  {
    hide TakeListener, SendOn, CloseChannel;
  }

  // The sweeper.

  /** The sweeper left alone with one entry removes it exactly if it is expired. */
  lemma SweepAlone(s: State, token: string, now: int)
    requires s.shelf.sweeper.Roaming? && token in s.shelf.store && s.shelf.store[token] < |s.memory.heap|
    ensures var s1 := Do(s, SweepLoad(token, now));
      && Enabled(s1, SweepLook)
      && var s2 := Do(s1, SweepLook);
         var job := s.memory.heap[s.shelf.store[token]];
         if !Finished(job) then s2 == s
         else
           && Enabled(s2, SweepAge)
           && var s3 := Do(s2, SweepAge);
              if !Expired(job, now, s.gate.ttl) then s3 == s
              else Enabled(s3, SweepDelete) && Do(s3, SweepDelete).shelf.store == s.shelf.store - {token}
  {
  }

  // What is always on offer.

  /** What the environment and the idle may always do. */
  lemma AlwaysOffered(s: State)
    ensures forall i | 0 <= i < |s.crew.workers| && s.crew.workers[i].Idle? ::
      (s.line.chan != [] ==> Enabled(s, Receive(i))) && (s.gate.stopped ==> Enabled(s, Leave(i)))
    ensures forall w, timer | 0 <= w < |s.bells.readers| && s.bells.readers[w].pc.Blocked? ::
      Enabled(s, GiveUp(w, timer))
    ensures forall token | token in s.shelf.store ::
      Enabled(s, Delete(token)) && (s.shelf.sweeper.Roaming? ==> forall now :: Enabled(s, SweepLoad(token, now)))
    ensures forall job: Job | job.output == NO_OUTPUT && (forall r | r in s.memory.heap :: r.token != job.token) ::
      Enabled(s, Submit(job))
    ensures forall token, waits :: Enabled(s, Ask(token, waits))
    ensures Enabled(s, Stop) && (s.gate.closed ==> s.gate.shut || Enabled(s, CloseJobs))
    ensures s.gate.closed || Enabled(s, CloseFlag)
  {
  }

  /** How calls begin. A waiting call counts as clear exactly if no call that waits for its token is
      under way. */
  lemma BeginningsExactly(s: State, job: Job, token: string, waits: bool)
    requires Enabled(s, Submit(job))
    ensures var s' := Do(s, Submit(job)); var j := |s.memory.heap|;
      s'.memory.heap == s.memory.heap + [job] && s'.calls == s.calls[j := Checking]
    ensures var readers, readers' := s.bells.readers, Do(s, Ask(token, waits)).bells.readers;
      && |readers'| == |readers| + 1 && readers'[..|readers|] == readers
      && var r := readers'[|readers|];
         && r.token == token && r.waits == waits && r.pc == (if waits then FirstLoad else LastLoad)
         && (r.clear <==> forall v | 0 <= v < |readers| && readers[v].waits && readers[v].token == token ::
                            readers[v].pc.Returned?)
  {
    var readers := s.bells.readers;
    var r := NewReader(readers, token, waits);
    if r.clear {
      forall v | 0 <= v < |readers| && readers[v].waits && readers[v].token == token
        ensures readers[v].pc.Returned?
      {
        assert readers[v] in readers;
      }
    }
  }
}
