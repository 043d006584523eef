/** When a configuration protects against lockout: the guard of `RevokeKey` counts the keys by
    identifier, while authentication finds them by hash. */
module KeyLockout {
  import opened Wrappers
  import opened KeyPolicy
  import opened KeyStore
  import opened KeyHandlers
  import opened KeySystem

  /** Some token authenticates as an active master AUTH key. */
  ghost predicate SomeoneCanLogIn(s: Store) {
    exists token: string :: Authenticated(s, token).Some? && IsMaster(Authenticated(s, token).value)
  }

  /** After every run, with Bootstrap repeated or not, someone can still administer the keys. */
  ghost predicate NeverLockedOut(tokens: seq<string>, metrics: string) {
    forall run: seq<Action> | Repeats(run, tokens, metrics) :: SomeoneCanLogIn(After(Start(tokens, metrics), run).store)
  }

  /** No token that is not blank is listed twice. */
  predicate NoTwins(tokens: seq<string>) {
    forall j, k | 0 <= j < k < |tokens| && TrimSpace(tokens[j]) != "" ::
      TrimSpace(tokens[j]) != TrimSpace(tokens[k])
  }

  /** A token that is not blank is configured, and no such token is configured twice. */
  predicate WellConfigured(tokens: seq<string>, metrics: string) {
    && (exists k :: 0 <= k < |tokens| && TrimSpace(tokens[k]) != "")
    && NoTwins(tokens)
    && (forall k | 0 <= k < |tokens| && TrimSpace(tokens[k]) != "" :: TrimSpace(tokens[k]) != TrimSpace(metrics))
  }

  /** The keys that Bootstrap makes of an empty store. */
  lemma {:induction false} ConfiguredKeys(tokens: seq<string>)
    ensures forall id | id in IngestedAll(EMPTY, tokens).keys ::
      id.BootstrapAuth? && 0 < id.position <= |tokens| && TrimSpace(tokens[id.position - 1]) != ""
      && IngestedAll(EMPTY, tokens).keys[id] == BootRecord(id, TrimSpace(tokens[id.position - 1]))
  {
    if tokens != [] {
      var n := |tokens| - 1;
      ConfiguredKeys(tokens[..n]);
    }
  }

  /** Distinct tokens leave every key findable. */
  lemma {:induction false} DistinctIndexed(tokens: seq<string>)
    requires NoTwins(tokens)
    ensures Indexed(IngestedAll(EMPTY, tokens))
  {
    if tokens != [] {
      var n := |tokens| - 1;
      var before := IngestedAll(EMPTY, tokens[..n]);
      forall j, k | 0 <= j < k < n && TrimSpace(tokens[..n][j]) != ""
        ensures TrimSpace(tokens[..n][j]) != TrimSpace(tokens[..n][k])
      {
        assert tokens[..n][j] == tokens[j] && tokens[..n][k] == tokens[k];
      }
      DistinctIndexed(tokens[..n]);
      IngestAllKeeps(EMPTY, tokens[..n]);
      ConfiguredKeys(tokens[..n]);
      UpsertIndexedExactly(before, BootRecord(BootstrapAuth(|tokens|), TrimSpace(tokens[n])));
    }
  }

  lemma MetricsIndexed(before: Store, tokens: seq<string>, metrics: string)
    requires WellConfigured(tokens, metrics) && before == IngestedAll(EMPTY, tokens)
    ensures Indexed(Ingested(before, BootstrapMetrics, metrics))
  {
    hide IngestedAll, TrimSpace, Upserted, Indexed;
    DistinctIndexed(tokens);
    IngestAllKeeps(EMPTY, tokens);
    ConfiguredKeys(tokens);
    UpsertIndexedExactly(before, BootRecord(BootstrapMetrics, TrimSpace(metrics)));
  }

  lemma TokenIsMaster(tokens: seq<string>, k: nat)
    requires k < |tokens| && TrimSpace(tokens[k]) != ""
    ensures BootstrapAuth(k + 1) in ActiveMasters(IngestedAll(EMPTY, tokens).keys)
  {
    hide IngestedAll, TrimSpace;
    IngestedSettles(EMPTY, tokens);
    ConfiguredKeys(tokens);
  }

  lemma StartIndexed(tokens: seq<string>, metrics: string)
    requires WellConfigured(tokens, metrics)
    ensures Indexed(Start(tokens, metrics).store) && ActiveMasters(Start(tokens, metrics).store.keys) != {}
  {
    hide IngestedAll, Ingested, TrimSpace, Indexed, ActiveMasters;
    var before := IngestedAll(EMPTY, tokens);
    MetricsIndexed(before, tokens, metrics);
    var k :| 0 <= k < |tokens| && TrimSpace(tokens[k]) != "";
    TokenIsMaster(tokens, k);
    IngestAllKeeps(EMPTY, tokens);
    IngestKeepsMaster(before, BootstrapMetrics, metrics);
  }

  lemma IndexedCanLogIn(s: System)
    requires Inv(s) && Indexed(s.store) && ActiveMasters(s.store.keys) != {}
    ensures SomeoneCanLogIn(s.store)
  {
    var m :| m in ActiveMasters(s.store.keys);
    assert ConfiguredRight(s.store.keys[m]);
    var token := s.store.keys[m].hash.token;
    assert Authenticated(s.store, token) == Some(s.store.keys[m]);
  }

  lemma WellConfiguredIsSafe(tokens: seq<string>, metrics: string, run: seq<Action>)
    requires WellConfigured(tokens, metrics) && Repeats(run, tokens, metrics)
    ensures SomeoneCanLogIn(After(Start(tokens, metrics), run).store)
  {
    var s := Start(tokens, metrics);
    StartInv(tokens, metrics);
    StartIndexed(tokens, metrics);
    BootstrapSettles(EMPTY, tokens, metrics);
    RunSettled(s, run, tokens, metrics);
    RunKeeps(s, run);
    MasterSurvives(s, run);
    IndexedCanLogIn(After(s, run));
  }

  // The other direction: a run that locks everyone out.

  lemma {:induction false} AfterConcat(s: System, a: seq<Action>, b: seq<Action>)
    ensures After(s, a + b) == After(After(s, a), b)
  {
    if b == [] {
      assert a + b == a;
    } else {
      var n := |b| - 1;
      assert (a + b)[..|a + b| - 1] == a + b[..n];
      AfterConcat(s, a, b[..n]);
    }
  }

  lemma AfterOne(s: System, a: Action)
    ensures After(s, [a]) == Do(s, a)
  {
    assert [a][..|[a]| - 1] == [];
  }

  /** An active master that no hash resolves to. */
  predicate Shadowed(s: Store, id: KeyId) {
    id in s.keys && IsActiveMaster(s.keys[id]) && !(s.keys[id].hash in s.index && s.index[s.keys[id].hash] == id)
  }

  lemma NotTheLast(s: Store, v: KeyId, other: KeyId)
    requires v in s.keys && other in ActiveMasters(s.keys) && v != other
    ensures RevokeError(s, v).None?
  {
    var masters := ActiveMasters(s.keys);
    if v in masters {
      assert |masters - {v}| == |masters| - 1 && other in masters - {v};
    }
  }

  /** While a shadowed master is counted, any set of other keys can be revoked. */
  lemma {:induction false} RevokeAll(
    s: System, caller: Record, victims: set<KeyId>, shadowed: KeyId) returns (run: seq<Action>)
    requires caller in s.sessions && IsMaster(caller) && victims <= s.store.keys.Keys
    requires shadowed in ActiveMasters(s.store.keys) && shadowed !in victims
    ensures forall k | 0 <= k < |run| :: run[k].Revoke?
    ensures After(s, run).sessions == s.sessions && After(s, run).store.index == s.store.index
    ensures After(s, run).store.keys == map id | id in s.store.keys ::
      if id in victims then s.store.keys[id].(status := Revoked) else s.store.keys[id]
    decreases |victims|
  {
    hide Bootstrapped, GeneratedIn, CanGenerate, Touched, Authenticated, BornAfter, RevokeError;
    run := [];
    if victims != {} {
      var v :| v in victims;
      var rest := RevokeAll(s, caller, victims - {v}, shadowed);
      run := rest + [Revoke(caller, v)];
      assert run[..|run| - 1] == rest;
      var s' := After(s, rest);
      assert shadowed in ActiveMasters(s'.store.keys);
      NotTheLast(s'.store, v, shadowed);
    }
  }

  lemma LockoutFrom(s: System, shadowed: KeyId) returns (run: seq<Action>)
    requires Inv(s) && Shadowed(s.store, shadowed)
    ensures (forall k | 0 <= k < |run| :: !run[k].Boot?) && !SomeoneCanLogIn(After(s, run).store)
  {
    hide RevokedIn, Created, Touched, Bootstrapped, KeysInv, SessionsInv, GeneratedIn, CanGenerate;
    run := [];
    if SomeoneCanLogIn(s.store) {
      var token: string :| Authenticated(s.store, token).Some? && IsMaster(Authenticated(s.store, token).value);
      var caller := Authenticated(s.store, token).value;
      var s1 := Do(s, LogIn(token));
      AfterOne(s, LogIn(token));
      var victims := set id | id in s.store.keys && IsActiveMaster(s.store.keys[id]) && !Shadowed(s.store, id);
      var revokes := RevokeAll(s1, caller, victims, shadowed);
      run := [LogIn(token)] + revokes;
      AfterConcat(s, [LogIn(token)], revokes);
      NobodyLeft(s.store, After(s, run).store);
    }
  }

  lemma NobodyLeft(s: Store, end: Store)
    requires Agrees(s) && end.index == s.index && end.keys.Keys == s.keys.Keys
    requires forall id | id in s.keys :: (if IsActiveMaster(s.keys[id]) && !Shadowed(s, id)
      then end.keys[id].status == Revoked else end.keys[id] == s.keys[id])
    ensures !SomeoneCanLogIn(end)
  {
    forall t: string ensures !(Authenticated(end, t).Some? && IsMaster(Authenticated(end, t).value)) {
      if Digest(t) in end.index {
        var id := end.index[Digest(t)];
        assert id in s.keys && s.keys[id].hash == Digest(t);
      }
    }
  }

  /** A token configured twice leaves a master shadowed. */
  lemma TwinShadows(tokens: seq<string>, metrics: string, j: nat, k: nat) returns (shadowed: KeyId)
    requires j < k < |tokens| && TrimSpace(tokens[j]) != "" && TrimSpace(tokens[j]) == TrimSpace(tokens[k])
    ensures Shadowed(Start(tokens, metrics).store, shadowed)
  {
    var s := Start(tokens, metrics).store;
    var a, b := BootstrapAuth(j + 1), BootstrapAuth(k + 1);
    ConfiguredMaster(tokens, metrics, j);
    ConfiguredMaster(tokens, metrics, k);
    shadowed := if Shadowed(s, a) then a else b;
  }

  lemma ConfiguredMaster(tokens: seq<string>, metrics: string, k: nat)
    requires k < |tokens| && TrimSpace(tokens[k]) != ""
    ensures BootstrapAuth(k + 1) in Start(tokens, metrics).store.keys
    ensures Start(tokens, metrics).store.keys[BootstrapAuth(k + 1)] ==
      BootRecord(BootstrapAuth(k + 1), TrimSpace(tokens[k]))
  {
    IngestedSettles(EMPTY, tokens);
    ConfiguredKeys(tokens);
  }

  /** So does an auth token that is the metrics token too. */
  lemma MetricsShadows(tokens: seq<string>, metrics: string, k: nat)
    requires k < |tokens| && TrimSpace(tokens[k]) != "" && TrimSpace(tokens[k]) == TrimSpace(metrics)
    ensures Shadowed(Start(tokens, metrics).store, BootstrapAuth(k + 1))
  {
    var before := IngestedAll(EMPTY, tokens);
    ConfiguredMaster(tokens, metrics, k);
    ConfiguredKeys(tokens);
    assert BootstrapMetrics !in before.keys;
  }

  /** Exactly the configurations without duplicates protect against lockout. */
  lemma LockoutExactly(tokens: seq<string>, metrics: string)
    ensures NeverLockedOut(tokens, metrics) <==> WellConfigured(tokens, metrics)
  {
    var s := Start(tokens, metrics);
    StartInv(tokens, metrics);
    if WellConfigured(tokens, metrics) {
      forall run: seq<Action> | Repeats(run, tokens, metrics) ensures SomeoneCanLogIn(After(s, run).store) {
        WellConfiguredIsSafe(tokens, metrics, run);
      }
    } else {
      var run: seq<Action> := [];
      if exists k :: 0 <= k < |tokens| && TrimSpace(tokens[k]) != "" {
        if j, k :| 0 <= j < k < |tokens| && TrimSpace(tokens[j]) != "" && TrimSpace(tokens[j]) == TrimSpace(tokens[k]) {
          var shadowed := TwinShadows(tokens, metrics, j, k);
          run := LockoutFrom(s, shadowed);
        } else {
          var k :| 0 <= k < |tokens| && TrimSpace(tokens[k]) != "" && TrimSpace(tokens[k]) == TrimSpace(metrics);
          MetricsShadows(tokens, metrics, k);
          run := LockoutFrom(s, BootstrapAuth(k + 1));
        }
      } else {
        NoMaster(tokens, metrics);
      }
      assert Repeats(run, tokens, metrics) && !SomeoneCanLogIn(After(s, run).store);
    }
  }

  lemma NoMaster(tokens: seq<string>, metrics: string)
    requires forall k | 0 <= k < |tokens| :: TrimSpace(tokens[k]) == ""
    ensures !SomeoneCanLogIn(Start(tokens, metrics).store)
  {
    ConfiguredKeys(tokens);
    var before := IngestedAll(EMPTY, tokens);
    IngestAllKeeps(EMPTY, tokens);
    IngestKeeps(before, BootstrapMetrics, metrics);
  }

  /** Revocation is permanent in every run of a configuration without duplicates: once a revocation
      has succeeded, the token of the key never authenticates again. */
  lemma RevokedKeyIsOut(
    tokens: seq<string>, metrics: string, before: seq<Action>, caller: Record, target: KeyId, after: seq<Action>)
    requires WellConfigured(tokens, metrics) && Repeats(before, tokens, metrics) && Repeats(after, tokens, metrics)
    requires caller in After(Start(tokens, metrics), before).sessions && IsMaster(caller)
    requires RevokeError(After(Start(tokens, metrics), before).store, target).None?
    ensures After(Start(tokens, metrics), before).store.keys[target].hash.Digest?
    ensures var token := After(Start(tokens, metrics), before).store.keys[target].hash.token;
      var run := before + [Revoke(caller, target)] + after;
      Authenticated(After(Start(tokens, metrics), run).store, token).None?
  {
    hide Inv, Settled, Indexed, Authenticated, WellConfigured, Do, Repeats;
    var s := Start(tokens, metrics);
    StartInv(tokens, metrics);
    StartIndexed(tokens, metrics);
    BootstrapSettles(EMPTY, tokens, metrics);
    RunSettled(s, before, tokens, metrics);
    RunKeeps(s, before);
    RevokedKeyStaysOut(After(s, before), caller, target, after, tokens, metrics);
    AfterConcat(s, before, [Revoke(caller, target)]);
    AfterOne(After(s, before), Revoke(caller, target));
    AfterConcat(s, before + [Revoke(caller, target)], after);
  }

  // Revocation without the assumption on the configuration.

  /** Every key's hash resolves to some key. */
  ghost predicate Resolves(s: Store) {
    forall id | id in s.keys :: s.keys[id].hash in s.index
  }

  lemma {:induction false} ConfiguredResolve(tokens: seq<string>)
    ensures Resolves(IngestedAll(EMPTY, tokens))
  {
    if tokens != [] {
      var n := |tokens| - 1;
      ConfiguredResolve(tokens[..n]);
      ConfiguredKeys(tokens[..n]);
      assert BootstrapAuth(|tokens|) !in IngestedAll(EMPTY, tokens[..n]).keys;
    }
  }

  lemma StartResolves(tokens: seq<string>, metrics: string)
    ensures Resolves(Start(tokens, metrics).store)
  {
    ConfiguredResolve(tokens);
    ConfiguredKeys(tokens);
    assert BootstrapMetrics !in IngestedAll(EMPTY, tokens).keys;
  }

  lemma StepResolves(s: System, a: Action)
    requires Resolves(s.store) && (a.Boot? ==> Do(s, a).store == s.store)
    ensures Resolves(Do(s, a).store)
  {
    hide CanGenerate, Bootstrapped;
    if a.Revoke? || a.Touch? {
      ChangesKeepHandles(s.store, if a.Revoke? then a.target else a.id, if a.Touch? then a.now else 0);
      hide RevokedIn, Touched;
    }
  }

  lemma {:induction false} RunResolves(tokens: seq<string>, metrics: string, run: seq<Action>)
    requires Repeats(run, tokens, metrics)
    ensures var s := After(Start(tokens, metrics), run);
      Inv(s) && Settled(s.store, tokens, metrics) && Resolves(s.store)
  {
    hide Inv, Settled, Resolves, Do, Start;
    var start := Start(tokens, metrics);
    StartInv(tokens, metrics);
    StartIsSettled(tokens, metrics);
    if run == [] {
      StartResolves(tokens, metrics);
    } else {
      var n := |run| - 1;
      RunResolves(tokens, metrics, run[..n]);
      RunSettled(start, run, tokens, metrics);
      RunKeeps(start, run);
      StepSettled(After(start, run[..n]), run[n], tokens, metrics) by {
        InvAgrees(After(start, run[..n]));
      }
      StepResolves(After(start, run[..n]), run[n]);
    }
  }

  lemma StartIsSettled(tokens: seq<string>, metrics: string)
    ensures Settled(Start(tokens, metrics).store, tokens, metrics)
  {
    BootstrapSettles(EMPTY, tokens, metrics);
  }

  lemma InvAgrees(s: System)
    requires Inv(s)
    ensures Agrees(s.store)
  {
  }

  /** From here on, no run makes the token authenticate. */
  ghost predicate OutForGood(s: System, token: string, tokens: seq<string>, metrics: string) {
    forall run: seq<Action> | Repeats(run, tokens, metrics) :: Authenticated(After(s, run).store, token).None?
  }

  /** In every reachable store of any configuration, a successful revocation puts the token of the
      key out for good exactly if the hash resolves to that key, or to one revoked before. */
  lemma RevokedOutExactly(
    tokens: seq<string>, metrics: string, before: seq<Action>, caller: Record, target: KeyId)
    requires Repeats(before, tokens, metrics)
    requires caller in After(Start(tokens, metrics), before).sessions && IsMaster(caller)
    requires RevokeError(After(Start(tokens, metrics), before).store, target).None?
    ensures var s := After(Start(tokens, metrics), before);
      var h := s.store.keys[target].hash;
      && h.Digest? && h in s.store.index && s.store.index[h] in s.store.keys
      && (OutForGood(Do(s, Revoke(caller, target)), h.token, tokens, metrics) <==>
            s.store.index[h] == target || s.store.keys[s.store.index[h]].status == Revoked)
  {
    hide Inv, Settled, Resolves, Repeats, OutForGood;
    RunResolves(tokens, metrics, before);
    var s := After(Start(tokens, metrics), before);
    TargetResolves(s, target);
    RevokedOutFrom(s, caller, target, tokens, metrics);
  }

  lemma RevokedOutFrom(s: System, caller: Record, target: KeyId, tokens: seq<string>, metrics: string)
    requires Inv(s) && Settled(s.store, tokens, metrics) && caller in s.sessions && IsMaster(caller)
    requires RevokeError(s.store, target).None?
    requires var h := s.store.keys[target].hash;
      h.Digest? && h.token != "" && h in s.store.index && s.store.index[h] in s.store.keys
    ensures var h := s.store.keys[target].hash;
      OutForGood(Do(s, Revoke(caller, target)), h.token, tokens, metrics) <==>
      s.store.index[h] == target || s.store.keys[s.store.index[h]].status == Revoked
  {
    hide Inv, Settled, GeneratedIn, Bootstrapped, Touched, Repeats;
    var h, s' := s.store.keys[target].hash, Do(s, Revoke(caller, target));
    assert s'.store == RevokedIn(s.store, target);
    InvAgrees(s);
    StepKeeps(s, Revoke(caller, target));
    StepSettled(s, Revoke(caller, target), tokens, metrics);
    OutExactly(s', h, tokens, metrics);
  }

  /** A token stays out exactly if its hash resolves to a revoked key. */
  lemma OutExactly(s: System, h: Hash, tokens: seq<string>, metrics: string)
    requires Inv(s) && Settled(s.store, tokens, metrics) && h.Digest? && h.token != ""
    requires h in s.store.index && s.store.index[h] in s.store.keys
    ensures OutForGood(s, h.token, tokens, metrics) <==> IsRevoked(s.store, h)
  {
    hide Inv, Settled, Do;
    if IsRevoked(s.store, h) {
      forall run: seq<Action> | Repeats(run, tokens, metrics)
        ensures Authenticated(After(s, run).store, h.token).None?
      {
        RevokedForGood(s, run, tokens, metrics, h.token);
      }
    } else {
      assert Repeats([], tokens, metrics) && After(s, []) == s;
    }
  }

  lemma TargetResolves(s: System, target: KeyId)
    requires Inv(s) && Resolves(s.store) && target in s.store.keys
    ensures var h := s.store.keys[target].hash;
      h.Digest? && h.token != "" && h in s.store.index && s.store.index[h] in s.store.keys
  {
    assert ConfiguredRight(s.store.keys[target]);
  }
}
