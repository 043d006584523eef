/** The values of the in-memory key store (pkg/auth/store.go): two maps, and what each operation
    makes of them. The index holds the identifier of the object that the program's second map
    points to. */
module KeyStore {
  import opened Wrappers
  import opened KeyPolicy
  import opened Text

  datatype Store = Store(keys: map<KeyId, Record>, index: map<Hash, KeyId>)

  const EMPTY := Store(map[], map[])

  datatype StoreError = KeyNotFound | LastMaster | DuplicateId | DuplicateHash

  /** Every hash entry is the object stored under its own identifier, and carries that hash. */
  ghost predicate Agrees(s: Store) {
    && (forall id | id in s.keys :: s.keys[id].id == id)
    && (forall h | h in s.index :: s.index[h] in s.keys && s.keys[s.index[h]].hash == h)
  }

  /** The other direction: every key is found by its hash. */
  ghost predicate Indexed(s: Store) {
    forall id | id in s.keys :: s.keys[id].hash in s.index && s.index[s.keys[id].hash] == id
  }

  function CreateError(s: Store, r: Record): Option<StoreError> {
    if r.id in s.keys then Some(DuplicateId) else if r.hash in s.index then Some(DuplicateHash) else None
  }

  function Created(s: Store, r: Record): Store {
    Store(if CreateError(s, r).None? then s.keys[r.id := r] else s.keys,
          if CreateError(s, r).None? then s.index[r.hash := r.id] else s.index)
  }

  function Upserted(s: Store, r: Record): Store {
    Store(s.keys[r.id := r], (if r.id in s.keys then s.index - {s.keys[r.id].hash} else s.index)[r.hash := r.id])
  }

  function Lookup(s: Store, h: Hash): Option<Record> {
    if h in s.index && s.index[h] in s.keys then Some(s.keys[s.index[h]]) else None
  }

  function ActiveMasters(keys: map<KeyId, Record>): set<KeyId> {
    set id | id in keys && IsActiveMaster(keys[id])
  }

  function RevokeError(s: Store, id: KeyId): Option<StoreError> {
    if id !in s.keys then Some(KeyNotFound)
    else if IsActiveMaster(s.keys[id]) && |ActiveMasters(s.keys)| <= 1 then Some(LastMaster)
    else None
  }

  function RevokedIn(s: Store, id: KeyId): Store {
    Store(if RevokeError(s, id).None? then s.keys[id := s.keys[id].(status := Revoked)] else s.keys, s.index)
  }

  function Touched(s: Store, id: KeyId, now: int): Store {
    Store(if id in s.keys then s.keys[id := s.keys[id].(lastUsedAt := Some(now))] else s.keys, s.index)
  }

  // Bootstrap.

  const SPACE := {' ', '\t', '\n', '\r', '\U{0B}', '\U{0C}'}

  function TrimLeft(s: string): string {
    if s != "" && s[0] in SPACE then TrimLeft(s[1..]) else s
  }

  function TrimSpace(s: string): string {
    TrimRight(TrimLeft(s), SPACE)
  }

  /** The part between the white space at both ends. */
  lemma {:induction false} TrimSpaceExactly(s: string) returns (i: nat, j: nat)
    ensures i <= j <= |s| && TrimSpace(s) == s[i..j]
    ensures forall k | 0 <= k < i || j <= k < |s| :: s[k] in {' ', '\t', '\n', '\r', '\U{0B}', '\U{0C}'}
    ensures i < j ==> s[i] !in {' ', '\t', '\n', '\r', '\U{0B}', '\U{0C}'}
    ensures i < j ==> s[j - 1] !in {' ', '\t', '\n', '\r', '\U{0B}', '\U{0C}'}
    decreases |s|
  {
    if s != "" && s[0] in SPACE {
      var i', j' := TrimSpaceExactly(s[1..]);
      i, j := i' + 1, j' + 1;
      assert s[1..][i'..j'] == s[i..j];
      assert forall k | 0 < k < |s| :: s[k] == s[1..][k - 1];
    } else {
      i, j := 0, |TrimSpace(s)|;
      assert s[0..j] == s[..j];
      if j > 0 && s[0] in SPACE { }
    }
  }

  function BootRecord(id: KeyId, token: string): Record {
    var keyType := if id == BootstrapMetrics then TYPE_METRICS else TYPE_AUTH;
    Record(id, Digest(token), keyType, ROLE_MASTER, Active, SystemBootstrap, None)
  }

  /** One configured token. */
  function Ingested(s: Store, id: KeyId, token: string): Store {
    if TrimSpace(token) == "" || (id in s.keys && s.keys[id].hash == Digest(TrimSpace(token))) then s
    else Upserted(s, BootRecord(id, TrimSpace(token)))
  }

  function IngestedAll(s: Store, tokens: seq<string>): Store {
    if tokens == [] then s
    else Ingested(IngestedAll(s, tokens[..|tokens| - 1]), BootstrapAuth(|tokens|), tokens[|tokens| - 1])
  }

  function Bootstrapped(s: Store, tokens: seq<string>, metrics: string): Store {
    Ingested(IngestedAll(s, tokens), BootstrapMetrics, metrics)
  }

  // Index agreement.

  lemma UpsertKeepsAgreement(s: Store, r: Record)
    requires Agrees(s)
    ensures Agrees(Upserted(s, r))
  {
    var s' := Upserted(s, r);
    forall h | h in s'.index ensures s'.index[h] in s'.keys && s'.keys[s'.index[h]].hash == h {
      if h != r.hash {
        assert h in s.index && s.index[h] in s.keys;
      }
    }
  }

  /** Only what no index looks at was changed. */
  ghost predicate SameHandles(s: Store, s': Store) {
    && s'.index == s.index
    && s'.keys.Keys == s.keys.Keys
    && forall id | id in s.keys :: s'.keys[id].id == s.keys[id].id && s'.keys[id].hash == s.keys[id].hash
  }

  lemma SameHandlesKeep(s: Store, s': Store)
    requires Agrees(s) && SameHandles(s, s')
    ensures Agrees(s') && (Indexed(s) ==> Indexed(s'))
  {
    assert forall id | id in s'.keys :: id in s.keys;
  }

  lemma ChangesKeepHandles(s: Store, id: KeyId, now: int)
    ensures SameHandles(s, RevokedIn(s, id)) && SameHandles(s, Touched(s, id, now))
  {
  }

  lemma CreateKeeps(s: Store, r: Record)
    requires Agrees(s)
    ensures Agrees(Created(s, r)) && (Indexed(s) ==> Indexed(Created(s, r)))
  {
    assert forall h | h in s.index :: s.index[h] in s.keys;
  }

  /** Creating, revoking, touching and upserting keep the agreement, whatever the hashes; all but
      the upsert keep every key findable. */
  lemma OperationsKeepAgreement(s: Store, r: Record, id: KeyId, now: int)
    requires Agrees(s)
    ensures Agrees(Created(s, r)) && Agrees(Upserted(s, r)) && Agrees(RevokedIn(s, id)) && Agrees(Touched(s, id, now))
    ensures Indexed(s) ==> Indexed(Created(s, r)) && Indexed(RevokedIn(s, id)) && Indexed(Touched(s, id, now))
  {
    hide Agrees, Indexed, SameHandles, Created, Upserted, RevokedIn, Touched;
    UpsertKeepsAgreement(s, r);
    CreateKeeps(s, r);
    ChangesKeepHandles(s, id, now);
    SameHandlesKeep(s, RevokedIn(s, id));
    SameHandlesKeep(s, Touched(s, id, now));
  }

  /** An upsert leaves every key findable exactly when no other key holds the new hash. */
  lemma UpsertIndexedExactly(s: Store, r: Record)
    requires Agrees(s) && Indexed(s)
    ensures Indexed(Upserted(s, r)) <==> (forall id | id in s.keys && id != r.id :: s.keys[id].hash != r.hash)
  {
    var s' := Upserted(s, r);
    if id :| id in s.keys && id != r.id && s.keys[id].hash == r.hash {
      assert s'.keys[id].hash == r.hash && s'.index[r.hash] == r.id;
    } else {
      forall id | id in s'.keys ensures s'.keys[id].hash in s'.index && s'.index[s'.keys[id].hash] == id {
        if id != r.id {
          assert s.keys[id].hash != r.hash && s.index[s.keys[id].hash] == id;
          assert r.id in s.keys ==> s.keys[r.id].hash != s.keys[id].hash;
        }
      }
    }
  }

  // Repeated bootstrap.

  /** The configured tokens are in place. */
  ghost predicate Settled(s: Store, tokens: seq<string>, metrics: string) {
    && (forall k | 0 <= k < |tokens| && TrimSpace(tokens[k]) != "" ::
          BootstrapAuth(k + 1) in s.keys && s.keys[BootstrapAuth(k + 1)].hash == Digest(TrimSpace(tokens[k])))
    && (TrimSpace(metrics) != "" ==>
          BootstrapMetrics in s.keys && s.keys[BootstrapMetrics].hash == Digest(TrimSpace(metrics)))
  }

  lemma {:induction false} SettledAll(s: Store, tokens: seq<string>, metrics: string)
    requires Settled(s, tokens, metrics)
    ensures IngestedAll(s, tokens) == s
  {
    if tokens != [] {
      var n := |tokens| - 1;
      assert forall k | 0 <= k < n :: tokens[..n][k] == tokens[k];
      SettledAll(s, tokens[..n], metrics);
    }
  }

  lemma {:induction false} IngestedSettles(s: Store, tokens: seq<string>)
    ensures Settled(IngestedAll(s, tokens), tokens, "")
  {
    assert TrimSpace("") == "";
    if tokens != [] {
      var n := |tokens| - 1;
      IngestedSettles(s, tokens[..n]);
      var before := IngestedAll(s, tokens[..n]);
      forall k | 0 <= k < |tokens| && TrimSpace(tokens[k]) != ""
        ensures BootstrapAuth(k + 1) in IngestedAll(s, tokens).keys
          && IngestedAll(s, tokens).keys[BootstrapAuth(k + 1)].hash == Digest(TrimSpace(tokens[k]))
      {
        if k < n {
          assert tokens[..n][k] == tokens[k];
        }
      }
    }
  }

  /** Bootstrap settles the store, and a settled store is one that Bootstrap leaves unchanged. */
  lemma BootstrapSettles(s: Store, tokens: seq<string>, metrics: string)
    ensures Settled(Bootstrapped(s, tokens, metrics), tokens, metrics)
    ensures Settled(s, tokens, metrics) ==> Bootstrapped(s, tokens, metrics) == s
  {
    IngestedSettles(s, tokens);
    if Settled(s, tokens, metrics) {
      SettledAll(s, tokens, metrics);
    }
  }

  /** A repeated Bootstrap changes nothing, duplicates among the tokens or not. */
  lemma BootstrapTwice(s: Store, tokens: seq<string>, metrics: string)
    ensures Bootstrapped(Bootstrapped(s, tokens, metrics), tokens, metrics) == Bootstrapped(s, tokens, metrics)
  {
    BootstrapSettles(s, tokens, metrics);
    BootstrapSettles(Bootstrapped(s, tokens, metrics), tokens, metrics);
  }
}
