/** Runs of the key system: requests authenticate, and later, with the copy of the key they were
    given then, generate and revoke keys; every transition is one of `KeyHandlers` or `KeyStore`. */
module KeySystem {
  import opened Wrappers
  import opened KeyPolicy
  import opened KeyStore
  import opened KeyHandlers

  /** `sessions` are the copies that requests hold, stale or not; `born` numbers the generated
      keys in the order in which they came. */
  datatype System = System(store: Store, sessions: set<Record>, born: map<KeyId, nat>)

  datatype Action =
    | LogIn(token: string)
    | Generate(caller: Record, keyType: string, role: string, tag: string, entropy: string)
    | Revoke(caller: Record, target: KeyId)
    | Touch(id: KeyId, now: int)
    | Boot(tokens: seq<string>, metrics: string)

  function Holder(s: System, caller: Record): Option<Record> {
    if caller in s.sessions then Some(caller) else None
  }

  function StoreAfter(s: System, a: Action): Store {
    match a
    case LogIn(_) => s.store
    case Generate(caller, keyType, role, tag, entropy) =>
      GeneratedIn(s.store, Holder(s, caller), keyType, role, KeyId.Generated(tag), entropy)
    case Revoke(caller, target) => RevokedBy(s.store, Holder(s, caller), Some(target))
    case Touch(id, now) => Touched(s.store, id, now)
    case Boot(tokens, metrics) => Bootstrapped(s.store, tokens, metrics)
  }

  function SessionsAfter(s: System, a: Action): set<Record> {
    if a.LogIn? && Authenticated(s.store, a.token).Some? then s.sessions + {Authenticated(s.store, a.token).value}
    else s.sessions
  }

  function BornAfter(s: System, a: Action): map<KeyId, nat> {
    if a.Generate? && KeyId.Generated(a.tag) !in s.store.keys && KeyId.Generated(a.tag) in StoreAfter(s, a).keys
    then s.born[KeyId.Generated(a.tag) := |s.born|]
    else s.born
  }

  function Do(s: System, a: Action): System {
    System(StoreAfter(s, a), SessionsAfter(s, a), BornAfter(s, a))
  }

  function After(s: System, run: seq<Action>): System {
    if run == [] then s else Do(After(s, run[..|run| - 1]), run[|run| - 1])
  }

  /** The program starts with an empty store and its configured tokens. */
  function Start(tokens: seq<string>, metrics: string): System {
    System(Bootstrapped(EMPTY, tokens, metrics), {}, map[])
  }

  // What every run keeps.

  predicate ConfiguredRight(r: Record) {
    r.hash.Digest? && r.hash.token != "" && match r.id
    case BootstrapAuth(_) => IsMaster(r) && r.createdBy == SystemBootstrap
    case BootstrapMetrics => r.keyType == TYPE_METRICS && r.role == ROLE_MASTER && r.createdBy == SystemBootstrap
    case Generated(_) => ValidateCombination(r.keyType, r.role).None? && r.createdBy.By?
  }

  /** Where a key came from: the configuration, or an earlier key that may make its kind. */
  predicate Descends(keys: map<KeyId, Record>, born: map<KeyId, nat>, id: KeyId)
    requires id in keys
  {
    var r := keys[id];
    r.createdBy.By? ==>
      && id.Generated? && id in born
      && r.createdBy.id in keys
      && (r.createdBy.id.Generated? ==> r.createdBy.id in born && born[r.createdBy.id] < born[id])
      && CanGenerate(Some(keys[r.createdBy.id].(status := Active)), r.keyType, r.role)
  }

  ghost predicate KeysInv(keys: map<KeyId, Record>, born: map<KeyId, nat>) {
    && (forall id | id in keys :: keys[id].id == id && ConfiguredRight(keys[id]) && Descends(keys, born, id))
    && (forall id | id in born :: id in keys && id.Generated? && born[id] < |born|)
  }

  /** A session is a copy of a key whose kind never changes. */
  ghost predicate SessionsInv(keys: map<KeyId, Record>, sessions: set<Record>) {
    forall r | r in sessions ::
      r.id in keys && keys[r.id].keyType == r.keyType && keys[r.id].role == r.role && r.status == Active
  }

  ghost predicate Inv(s: System) {
    Agrees(s.store) && KeysInv(s.store.keys, s.born) && SessionsInv(s.store.keys, s.sessions)
  }

  /** Nothing but status and last use of any key differs, and what is new is a bootstrap key. */
  ghost predicate SameKinds(keys: map<KeyId, Record>, keys': map<KeyId, Record>) {
    && (forall id | id in keys ::
          && id in keys' && keys'[id].keyType == keys[id].keyType && keys'[id].role == keys[id].role
          && keys'[id].createdBy == keys[id].createdBy)
    && (forall id | id in keys' :: keys'[id].id == id && ConfiguredRight(keys'[id]))
    && (forall id | id in keys' && id !in keys :: !id.Generated?)
  }

  lemma SameKindsKeep(keys: map<KeyId, Record>, keys': map<KeyId, Record>, born: map<KeyId, nat>, sessions: set<Record>)
    requires KeysInv(keys, born) && SessionsInv(keys, sessions) && SameKinds(keys, keys')
    ensures KeysInv(keys', born) && SessionsInv(keys', sessions)
  {
    forall id | id in keys' ensures Descends(keys', born, id) {
      if id in keys {
        assert Descends(keys, born, id);
      }
    }
  }

  lemma IngestKeeps(s: Store, id: KeyId, token: string)
    requires Agrees(s) && (forall k | k in s.keys :: ConfiguredRight(s.keys[k])) && !id.Generated?
    ensures Agrees(Ingested(s, id, token)) && SameKinds(s.keys, Ingested(s, id, token).keys)
  {
    UpsertKeepsAgreement(s, BootRecord(id, TrimSpace(token)));
    if id in s.keys {
      assert ConfiguredRight(s.keys[id]);
    }
  }

  lemma {:induction false} IngestAllKeeps(s: Store, tokens: seq<string>)
    requires Agrees(s) && forall k | k in s.keys :: ConfiguredRight(s.keys[k])
    ensures Agrees(IngestedAll(s, tokens)) && SameKinds(s.keys, IngestedAll(s, tokens).keys)
  {
    if tokens != [] {
      var n := |tokens| - 1;
      IngestAllKeeps(s, tokens[..n]);
      var before := IngestedAll(s, tokens[..n]);
      IngestKeeps(before, BootstrapAuth(|tokens|), tokens[n]);
    }
  }

  lemma BootKeeps(s: Store, tokens: seq<string>, metrics: string)
    requires Agrees(s) && forall k | k in s.keys :: ConfiguredRight(s.keys[k])
    ensures Agrees(Bootstrapped(s, tokens, metrics)) && SameKinds(s.keys, Bootstrapped(s, tokens, metrics).keys)
  {
    IngestAllKeeps(s, tokens);
    IngestKeeps(IngestedAll(s, tokens), BootstrapMetrics, metrics);
  }

  lemma GenerateKeeps(s: System, a: Action)
    requires Inv(s) && a.Generate?
    ensures Inv(Do(s, a))
  {
    hide Agrees, KeysInv, SessionsInv, ValidateCombination, ListPermissions, CanGenerate;
    var id := KeyId.Generated(a.tag);
    var caller := Holder(s, a.caller);
    var keyType, role := Lower(a.keyType), Lower(a.role);
    NobodyGenerates(keyType, role);
    if CanGenerate(caller, keyType, role) {
      var r := NewKey(keyType, role, a.caller.id, id, a.entropy);
      CreateKeeps(s.store, r);
      if CreateError(s.store, r).None? {
        NewbornKeeps(s.store.keys, s.born, s.sessions, r, a.caller);
      }
    }
  }

  lemma NewbornKeeps(keys: map<KeyId, Record>, born: map<KeyId, nat>, sessions: set<Record>, r: Record, caller: Record)
    requires KeysInv(keys, born) && SessionsInv(keys, sessions) && caller in sessions
    requires r.id !in keys && r.id.Generated? && r.createdBy == By(caller.id) && r.hash.Digest? && r.hash.token != ""
    requires CanGenerate(Some(caller), r.keyType, r.role)
    ensures KeysInv(keys[r.id := r], born[r.id := |born|]) && SessionsInv(keys[r.id := r], sessions)
  {
    hide CanGenerate;
    var keys', born' := keys[r.id := r], born[r.id := |born|];
    OneMore(born, r.id);
    assert Descends(keys, born, caller.id) && ConfiguredRight(keys[caller.id]);
    KindDecides(caller, keys[caller.id], r);
    forall id | id in keys' ensures Descends(keys', born', id) {
      if id != r.id {
        assert Descends(keys, born, id);
      }
    }
  }

  lemma OneMore(born: map<KeyId, nat>, id: KeyId)
    requires id !in born
    ensures |born[id := |born|]| == |born| + 1
  {
    assert born[id := |born|].Keys == born.Keys + {id};
  }

  lemma KindDecides(caller: Record, now: Record, r: Record)
    requires CanGenerate(Some(caller), r.keyType, r.role) && now.keyType == caller.keyType && now.role == caller.role
    ensures CanGenerate(Some(now.(status := Active)), r.keyType, r.role) && ValidateCombination(r.keyType, r.role).None?
  {
  }

  lemma RevokeKinds(s: Store, id: KeyId)
    requires Agrees(s) && forall k | k in s.keys :: ConfiguredRight(s.keys[k])
    ensures SameKinds(s.keys, RevokedIn(s, id).keys)
  {
  }

  lemma TouchKinds(s: Store, id: KeyId, now: int)
    requires Agrees(s) && forall k | k in s.keys :: ConfiguredRight(s.keys[k])
    ensures SameKinds(s.keys, Touched(s, id, now).keys)
  {
  }

  lemma LogInKeeps(s: System, token: string)
    requires Inv(s)
    ensures Inv(Do(s, LogIn(token)))
  {
    hide KeysInv;
  }

  /** The other steps change no kind of any key. */
  lemma ChangeKeeps(s: System, a: Action)
    requires Inv(s) && (a.Revoke? || a.Touch? || a.Boot?)
    ensures Agrees(StoreAfter(s, a)) && SameKinds(s.store.keys, StoreAfter(s, a).keys)
  {
    hide SameKinds, RevokedIn, Touched, Bootstrapped, GeneratedIn, SessionsInv, Agrees, Descends, SameHandles;
    assert forall k | k in s.store.keys :: ConfiguredRight(s.store.keys[k]);
    if a.Revoke? {
      RevokeKinds(s.store, a.target);
      ChangesKeepHandles(s.store, a.target, 0);
      SameHandlesKeep(s.store, RevokedIn(s.store, a.target));
      NothingChanged(s.store);
    } else if a.Touch? {
      TouchKinds(s.store, a.id, a.now);
      ChangesKeepHandles(s.store, a.id, a.now);
      SameHandlesKeep(s.store, Touched(s.store, a.id, a.now));
    } else {
      BootKeeps(s.store, a.tokens, a.metrics);
    }
  }

  lemma NothingChanged(s: Store)
    requires Agrees(s) && forall k | k in s.keys :: ConfiguredRight(s.keys[k])
    ensures SameKinds(s.keys, s.keys)
  {
  }

  lemma StepKeeps(s: System, a: Action)
    requires Inv(s)
    ensures Inv(Do(s, a))
  {
    hide Descends, ConfiguredRight, SameKinds, RevokedIn, Touched, Bootstrapped, GeneratedIn;
    hide SessionsInv, Agrees, KeysInv;
    if a.Generate? {
      GenerateKeeps(s, a);
    } else if a.LogIn? {
      LogInKeeps(s, a.token);
    } else {
      ChangeKeeps(s, a);
      SameKindsKeep(s.store.keys, StoreAfter(s, a).keys, s.born, s.sessions);
    }
  }

  lemma {:induction false} RunKeeps(s: System, run: seq<Action>)
    requires Inv(s)
    ensures Inv(After(s, run))
  {
    if run != [] {
      RunKeeps(s, run[..|run| - 1]);
      StepKeeps(After(s, run[..|run| - 1]), run[|run| - 1]);
    }
  }

  lemma StartInv(tokens: seq<string>, metrics: string)
    ensures Inv(Start(tokens, metrics))
  {
    BootKeeps(EMPTY, tokens, metrics);
    var keys := Start(tokens, metrics).store.keys;
    forall id | id in keys ensures Descends(keys, map[], id) {
      assert ConfiguredRight(keys[id]);
    }
  }

  // Lockout protection.

  /** One step at a time, whatever is upserted, revoked or touched. */
  lemma IngestKeepsMaster(s: Store, id: KeyId, token: string)
    requires Agrees(s) && ActiveMasters(s.keys) != {} && forall k | k in s.keys :: ConfiguredRight(s.keys[k])
    requires !id.Generated?
    ensures ActiveMasters(Ingested(s, id, token).keys) != {}
  {
    var m :| m in ActiveMasters(s.keys);
    var s' := Ingested(s, id, token);
    assert ConfiguredRight(s.keys[m]);
    assert m in ActiveMasters(s'.keys);
  }

  lemma {:induction false} IngestAllKeepsMaster(s: Store, tokens: seq<string>)
    requires Agrees(s) && ActiveMasters(s.keys) != {} && forall k | k in s.keys :: ConfiguredRight(s.keys[k])
    ensures ActiveMasters(IngestedAll(s, tokens).keys) != {}
  {
    if tokens != [] {
      var n := |tokens| - 1;
      IngestAllKeepsMaster(s, tokens[..n]);
      IngestAllKeeps(s, tokens[..n]);
      IngestKeepsMaster(IngestedAll(s, tokens[..n]), BootstrapAuth(|tokens|), tokens[n]);
    }
  }

  lemma BootKeepsMaster(s: Store, tokens: seq<string>, metrics: string)
    requires Agrees(s) && ActiveMasters(s.keys) != {} && forall k | k in s.keys :: ConfiguredRight(s.keys[k])
    ensures ActiveMasters(Bootstrapped(s, tokens, metrics).keys) != {}
  {
    IngestAllKeepsMaster(s, tokens);
    IngestAllKeeps(s, tokens);
    IngestKeepsMaster(IngestedAll(s, tokens), BootstrapMetrics, metrics);
  }

  lemma RevokeKeepsMaster(s: Store, id: KeyId)
    requires ActiveMasters(s.keys) != {}
    ensures ActiveMasters(RevokedIn(s, id).keys) != {}
  {
    var all := ActiveMasters(s.keys);
    if RevokeError(s, id).None? && IsActiveMaster(s.keys[id]) {
      assert |all - {id}| == |all| - 1 > 0;
      var m :| m in all - {id};
      assert m in ActiveMasters(RevokedIn(s, id).keys);
    } else {
      var m :| m in all;
      assert m in ActiveMasters(RevokedIn(s, id).keys);
    }
  }

  lemma StepKeepsMaster(s: System, a: Action)
    requires Inv(s) && ActiveMasters(s.store.keys) != {}
    ensures ActiveMasters(Do(s, a).store.keys) != {}
  {
    if a.Revoke? {
      RevokeKeepsMaster(s.store, a.target);
    } else if a.Boot? {
      BootKeepsMaster(s.store, a.tokens, a.metrics);
    } else {
      var m :| m in ActiveMasters(s.store.keys);
      assert m in ActiveMasters(Do(s, a).store.keys);
    }
  }

  /** Lockout protection over whole runs: with one active master AUTH key, there is always one,
      whatever is created, revoked, touched or configured. */
  lemma {:induction false} MasterSurvives(s: System, run: seq<Action>)
    requires Inv(s) && ActiveMasters(s.store.keys) != {}
    ensures ActiveMasters(After(s, run).store.keys) != {}
  {
    if run != [] {
      var n := |run| - 1;
      MasterSurvives(s, run[..n]);
      RunKeeps(s, run[..n]);
      StepKeepsMaster(After(s, run[..n]), run[n]);
    }
  }

  // Provenance.

  /** From a key to the configuration, through the keys that made one another. */
  ghost predicate IsLineage(keys: map<KeyId, Record>, chain: seq<KeyId>, id: KeyId) {
    && chain != [] && chain[0] == id
    && (forall k | 0 <= k < |chain| :: chain[k] in keys)
    && (forall k | 0 <= k < |chain| - 1 :: keys[chain[k]].createdBy == By(chain[k + 1]))
    && keys[chain[|chain| - 1]].createdBy == SystemBootstrap
  }

  /** Every key after the first is an AUTH key, and a master if the first one is privileged. */
  ghost predicate Entitled(keys: map<KeyId, Record>, chain: seq<KeyId>)
    requires chain != [] && forall k | 0 <= k < |chain| :: chain[k] in keys
  {
    forall k | 0 < k < |chain| :: keys[chain[k]].keyType == TYPE_AUTH
      && (keys[chain[0]].role == ROLE_MASTER ==> IsMaster(keys[chain[k]]))
  }

  function Age(born: map<KeyId, nat>, id: KeyId): nat {
    if id in born then born[id] + 1 else 0
  }

  lemma {:induction false} LineageOf(
    keys: map<KeyId, Record>, born: map<KeyId, nat>, id: KeyId) returns (chain: seq<KeyId>)
    requires KeysInv(keys, born) && id in keys
    ensures IsLineage(keys, chain, id) && Entitled(keys, chain) && |chain| <= |born| + 1
    ensures |chain| <= Age(born, id) + 1
    decreases Age(born, id)
  {
    hide CanGenerate, ValidateCombination, ConfiguredRight;
    assert Descends(keys, born, id);
    if keys[id].createdBy == SystemBootstrap {
      chain := [id];
    } else {
      var creator := keys[id].createdBy.id;
      var rest := LineageOf(keys, born, creator);
      CreatorKind(keys[creator].(status := Active), keys[id]);
      chain := [id] + rest;
    }
  }

  lemma CreatorKind(creator: Record, r: Record)
    requires CanGenerate(Some(creator), r.keyType, r.role)
    ensures creator.keyType == TYPE_AUTH && (r.role == ROLE_MASTER ==> creator.role == ROLE_MASTER)
  {
  }

  /** Provenance of privilege, in every store the program can reach. */
  lemma Provenance(tokens: seq<string>, metrics: string, run: seq<Action>, id: KeyId) returns (chain: seq<KeyId>)
    requires id in After(Start(tokens, metrics), run).store.keys
    ensures IsLineage(After(Start(tokens, metrics), run).store.keys, chain, id)
    ensures Entitled(After(Start(tokens, metrics), run).store.keys, chain)
    ensures |chain| <= |After(Start(tokens, metrics), run).born| + 1
  {
    StartInv(tokens, metrics);
    RunKeeps(Start(tokens, metrics), run);
    var s := After(Start(tokens, metrics), run);
    chain := LineageOf(s.store.keys, s.born, id);
  }

  /** In every reachable store the two maps of the program agree. */
  lemma MapsAgree(tokens: seq<string>, metrics: string, run: seq<Action>)
    ensures Agrees(After(Start(tokens, metrics), run).store)
  {
    StartInv(tokens, metrics);
    RunKeeps(Start(tokens, metrics), run);
  }

  // Runs of one configuration.

  /** Bootstrap is run again only with the tokens it was first run with. */
  predicate Repeats(run: seq<Action>, tokens: seq<string>, metrics: string) {
    forall k | 0 <= k < |run| && run[k].Boot? :: run[k] == Boot(tokens, metrics)
  }

  lemma StepSettled(s: System, a: Action, tokens: seq<string>, metrics: string)
    requires Settled(s.store, tokens, metrics) && Agrees(s.store) && (a.Boot? ==> a == Boot(tokens, metrics))
    ensures Settled(Do(s, a).store, tokens, metrics) && (a.Boot? ==> Do(s, a).store == s.store)
    ensures Indexed(s.store) ==> Indexed(Do(s, a).store)
  {
    hide Settled, Agrees, Indexed, SameHandles, Bootstrapped, RevokedIn, Touched, Created, CanGenerate;
    if a.Boot? {
      BootstrapSettles(s.store, tokens, metrics);
    } else if a.Revoke? {
      ChangesKeepHandles(s.store, a.target, 0);
      HandlesSettled(s.store, RevokedIn(s.store, a.target), tokens, metrics);
    } else if a.Touch? {
      ChangesKeepHandles(s.store, a.id, a.now);
      HandlesSettled(s.store, Touched(s.store, a.id, a.now), tokens, metrics);
    } else if a.Generate? {
      NobodyGenerates(Lower(a.keyType), Lower(a.role));
      var r := NewKey(Lower(a.keyType), Lower(a.role), a.caller.id, KeyId.Generated(a.tag), a.entropy);
      CreatedSettled(s.store, r, tokens, metrics);
    }
  }

  lemma HandlesSettled(s: Store, s': Store, tokens: seq<string>, metrics: string)
    requires Settled(s, tokens, metrics) && Agrees(s) && SameHandles(s, s')
    ensures Settled(s', tokens, metrics) && (Indexed(s) ==> Indexed(s'))
  {
    hide Indexed, Agrees, TrimSpace;
    SameHandlesKeep(s, s');
  }

  lemma CreatedSettled(s: Store, r: Record, tokens: seq<string>, metrics: string)
    requires Settled(s, tokens, metrics) && Agrees(s)
    ensures Settled(Created(s, r), tokens, metrics) && (Indexed(s) ==> Indexed(Created(s, r)))
  {
    hide Indexed, Agrees, TrimSpace;
    CreateKeeps(s, r);
  }

  lemma {:induction false} RunSettled(s: System, run: seq<Action>, tokens: seq<string>, metrics: string)
    requires Inv(s) && Settled(s.store, tokens, metrics) && Repeats(run, tokens, metrics)
    ensures Settled(After(s, run).store, tokens, metrics)
    ensures Indexed(s.store) ==> Indexed(After(s, run).store)
  {
    if run != [] {
      var n := |run| - 1;
      RunSettled(s, run[..n], tokens, metrics);
      RunKeeps(s, run[..n]);
      StepSettled(After(s, run[..n]), run[n], tokens, metrics);
    }
  }

  predicate IsRevoked(s: Store, h: Hash) {
    Lookup(s, h).Some? && Lookup(s, h).value.status == Revoked
  }

  lemma StepKeepsRevoked(s: System, a: Action, h: Hash)
    requires IsRevoked(s.store, h) && (a.Boot? ==> Do(s, a).store == s.store)
    ensures IsRevoked(Do(s, a).store, h)
  {
  }

  /** Revocation is permanent: a hash that resolves to a revoked key resolves to a revoked key
      after every run of creations, touches, revocations and repeated bootstraps, and no token
      with that hash is authenticated. */
  lemma {:induction false} RevokedForGood(
    s: System, run: seq<Action>, tokens: seq<string>, metrics: string, token: string)
    requires Inv(s) && Settled(s.store, tokens, metrics) && Repeats(run, tokens, metrics)
    requires IsRevoked(s.store, Digest(token))
    ensures IsRevoked(After(s, run).store, Digest(token)) && Authenticated(After(s, run).store, token).None?
  {
    if run != [] {
      var n := |run| - 1;
      RevokedForGood(s, run[..n], tokens, metrics, token);
      RunSettled(s, run[..n], tokens, metrics);
      RunKeeps(s, run[..n]);
      StepSettled(After(s, run[..n]), run[n], tokens, metrics);
      StepKeepsRevoked(After(s, run[..n]), run[n], Digest(token));
    }
  }

  /** A revoked key that its hash resolved to is out from then on. */
  lemma RevokedKeyStaysOut(
    s: System, caller: Record, target: KeyId, run: seq<Action>, tokens: seq<string>, metrics: string)
    requires Inv(s) && Indexed(s.store) && Settled(s.store, tokens, metrics) && Repeats(run, tokens, metrics)
    requires caller in s.sessions && IsMaster(caller) && RevokeError(s.store, target).None?
    ensures s.store.keys[target].hash.Digest?
    ensures Authenticated(After(Do(s, Revoke(caller, target)), run).store, s.store.keys[target].hash.token).None?
  {
    hide SessionsInv, Settled, CanGenerate, Bootstrapped, Touched, GeneratedIn, Descends, Repeats;
    var a := Revoke(caller, target);
    assert ConfiguredRight(s.store.keys[target]);
    StepKeeps(s, a);
    StepSettled(s, a, tokens, metrics);
    RevokedForGood(Do(s, a), run, tokens, metrics, s.store.keys[target].hash.token);
  }
}
