/** What drives the key store: Bootstrap (pkg/auth/store.go), the construction of a new key
    (pkg/auth/generator.go), the lookup of the authentication middleware (pkg/api/middleware.go) and
    the two handlers that change keys (pkg/api/auth.go). */
module KeyHandlers {
  import opened Wrappers
  import opened KeyPolicy
  import opened KeyStore
  import opened MemoryStore

  const OK := 200
  const CREATED := 201
  const BAD_REQUEST := 400
  const UNAUTHORIZED := 401
  const FORBIDDEN := 403
  const NOT_FOUND := 404
  const CONFLICT := 409
  const INTERNAL_ERROR := 500

  /** `strings.ToLower` on ASCII. */
  function Lower(s: string): (r: string)
    ensures |r| == |s|
    ensures forall k | 0 <= k < |s| :: !('A' <= r[k] <= 'Z')
    ensures forall k | 0 <= k < |s| :: if 'A' <= s[k] <= 'Z' then r[k] as int == s[k] as int + 32 else r[k] == s[k]
  {
    if s == "" then "" else [if 'A' <= s[0] <= 'Z' then s[0] - 'A' + 'a' else s[0]] + Lower(s[1..])
  }

  /** The secret of a new key; `entropy` is drawn at random. */
  function RawKey(keyType: string, entropy: string): string {
    (if keyType == TYPE_METRICS then "cee_metrics_" else "cee_live_") + entropy
  }

  /** A new active key; its identifier too is drawn at random. */
  function NewKey(keyType: string, role: string, creator: KeyId, id: KeyId, entropy: string): Record {
    Record(id, Digest(RawKey(keyType, entropy)), keyType, role, Active, By(creator), None)
  }

  function Authenticated(s: Store, token: string): Option<Record> {
    if token == "" || Lookup(s, Digest(token)).None? || Lookup(s, Digest(token)).value.status != Active then None
    else Lookup(s, Digest(token))
  }

  function GeneratedIn(
    s: Store, caller: Option<Record>, keyType: string, role: string, id: KeyId, entropy: string): Store {
    if CanGenerate(caller, Lower(keyType), Lower(role)) then
      Created(s, NewKey(Lower(keyType), Lower(role), caller.value.id, id, entropy))
    else s
  }

  function RevokedBy(s: Store, caller: Option<Record>, id: Option<KeyId>): Store {
    if caller.Some? && IsMaster(caller.value) && id.Some? then RevokedIn(s, id.value) else s
  }

  method Bootstrap(store: MemoryStore, authTokens: seq<string>, metricsToken: string)
    requires store.Valid()
    modifies store
    ensures store.Valid() && store.Model() == Bootstrapped(old(store.Model()), authTokens, metricsToken)
  {
    hide Upserted, TrimSpace, MemoryStore.Valid, MemoryStore.Model;
    ghost var s := store.Model();
    for i := 0 to |authTokens|
      invariant store.Valid() && store.Model() == IngestedAll(s, authTokens[..i])
    {
      assert authTokens[..i + 1][..i] == authTokens[..i];
      var token := TrimSpace(authTokens[i]);
      if token == "" {
        continue;
      }
      var id := BootstrapAuth(i + 1);
      var existingKey := store.GetKey(id);
      if existingKey.None? || existingKey.value.hash != Digest(token) {
        var k := new Key(Record(id, Digest(token), TYPE_AUTH, ROLE_MASTER, Active, SystemBootstrap, None));
        store.UpsertKey(k);
      }
    }
    assert authTokens[..|authTokens|] == authTokens;
    var token := TrimSpace(metricsToken);
    if token != "" {
      var existingKey := store.GetKey(BootstrapMetrics);
      if existingKey.None? || existingKey.value.hash != Digest(token) {
        var k := new Key(
          Record(BootstrapMetrics, Digest(token), TYPE_METRICS, ROLE_MASTER, Active, SystemBootstrap, None));
        store.UpsertKey(k);
      }
    }
  }

  method Authenticate(store: MemoryStore, token: string) returns (key: Option<Key>)
    requires store.Valid()
    ensures key.None? <==> Authenticated(store.Model(), token).None?
    ensures key.Some? ==> fresh(key.value) && Some(key.value.Value()) == Authenticated(store.Model(), token)
  {
    if token == "" {
      return None;
    }
    key := store.GetKeyByHash(Digest(token));
    if key.None? || key.value.status != Active {
      return None;
    }
  }

  function ValueOf(key: Option<Key>): Option<Record>
    reads if key.Some? then {key.value} else {}
  {
    if key.Some? then Some(key.value.Value()) else None
  }

  /** One key more, under an identifier that was free: active, of the kind asked for, made by the
      caller, found by its secret, which authenticates at once. */
  ghost predicate Makes(
    before: Store, after: Store, caller: KeyId, keyType: string, role: string, id: KeyId,
    secret: string, entropy: string)
  {
    var key := Record(id, Digest(secret), keyType, role, Active, By(caller), None);
    && secret == (if keyType == "metrics" then "cee_metrics_" else "cee_live_") + entropy
    && id !in before.keys && Digest(secret) !in before.index
    && after.keys == before.keys[id := key] && after.index == before.index[Digest(secret) := id]
    && Authenticated(after, secret) == Some(key)
  }

  lemma NobodyGenerates(keyType: string, role: string)
    ensures !CanGenerate(None, keyType, role)
  {
  }

  lemma InvalidNotGenerated(caller: Option<Record>, keyType: string, role: string)
    requires CanGenerate(caller, keyType, role)
    ensures ValidateCombination(keyType, role).None?
  {
  }

  lemma CreatedMakes(s: Store, caller: KeyId, keyType: string, role: string, id: KeyId, entropy: string)
    requires CreateError(s, NewKey(keyType, role, caller, id, entropy)).None?
    ensures var r := NewKey(keyType, role, caller, id, entropy);
      Makes(s, Created(s, r), caller, keyType, role, id, RawKey(keyType, entropy), entropy)
  {
  }

  method GenerateKey(
    store: MemoryStore, caller: Option<Key>, reqType: string, reqRole: string, id: KeyId, entropy: string)
    returns (status: nat, secret: string)
    requires store.Valid()
    modifies store
    ensures store.Valid()
    ensures store.Model() == old(GeneratedIn(store.Model(), ValueOf(caller), reqType, reqRole, id, entropy))
    ensures status == UNAUTHORIZED <==> caller.None?
    ensures status == BAD_REQUEST <==> caller.Some? && ValidateCombination(Lower(reqType), Lower(reqRole)).Some?
    ensures status == FORBIDDEN <==>
      && caller.Some? && ValidateCombination(Lower(reqType), Lower(reqRole)).None?
      && !old(CanGenerate(ValueOf(caller), Lower(reqType), Lower(reqRole)))
    ensures status == CREATED <==> store.Model() != old(store.Model())
    ensures status in {UNAUTHORIZED, BAD_REQUEST, FORBIDDEN, INTERNAL_ERROR, CREATED}
    ensures status == CREATED ==>
      Makes(old(store.Model()), store.Model(), caller.value.id, Lower(reqType), Lower(reqRole), id, secret, entropy)
    ensures status != CREATED ==> secret == "" && store.Model() == old(store.Model())
  {
    hide MemoryStore.Valid, MemoryStore.Model, Authenticated, ValidateCombination, CanGenerate, Lookup, RawKey;
    if caller.None? {
      NobodyGenerates(Lower(reqType), Lower(reqRole));
      return UNAUTHORIZED, "";
    }
    var keyType, role := Lower(reqType), Lower(reqRole);
    if CanGenerate(ValueOf(caller), keyType, role) {
      InvalidNotGenerated(ValueOf(caller), keyType, role);
    }
    if ValidateCombination(keyType, role).Some? {
      return BAD_REQUEST, "";
    }
    var callerValue := ValueOf(caller);
    if !CanGenerate(callerValue, keyType, role) {
      return FORBIDDEN, "";
    }
    var key := new Key(NewKey(keyType, role, caller.value.id, id, entropy));
    ghost var before := store.Model();
    var err := store.CreateKey(key);
    if err.Some? {
      return INTERNAL_ERROR, "";
    }
    CreatedMakes(before, caller.value.id, keyType, role, id, entropy);
    return CREATED, RawKey(keyType, entropy);
  }

  method RevokeKey(store: MemoryStore, caller: Option<Key>, id: Option<KeyId>) returns (status: nat)
    requires store.Valid()
    modifies store.keysById.Values
    ensures store.Valid() && store.Model() == old(RevokedBy(store.Model(), ValueOf(caller), id))
    ensures status == FORBIDDEN <==> caller.None? || !old(IsMaster(caller.value.Value()))
    ensures status == BAD_REQUEST <==> status != FORBIDDEN && id.None?
    ensures status == NOT_FOUND <==> status != FORBIDDEN && id.Some? && id.value !in old(store.Model()).keys
    ensures status == OK ==> id.value in store.Model().keys && store.Model().keys[id.value].status == Revoked
    ensures status in {FORBIDDEN, BAD_REQUEST, NOT_FOUND, CONFLICT, OK}
    ensures status == OK ==>
      var s := old(store.Model());
      id.value in s.keys && store.Model() == Store(s.keys[id.value := s.keys[id.value].(status := Revoked)], s.index)
    ensures status != OK ==> store.Model() == old(store.Model())
    ensures status == CONFLICT <==>
      && status != FORBIDDEN && id.Some? && id.value in old(store.Model()).keys
      && old(ActiveMasters(store.Model().keys)) == {id.value}
  {
    if caller.None? || !(caller.value.keyType == TYPE_AUTH && caller.value.role == ROLE_MASTER) {
      return FORBIDDEN;
    }
    if id.None? {
      return BAD_REQUEST;
    }
    ghost var keys := store.Model().keys;
    if id.value in keys {
      LastExactly(keys, id.value);
    }
    var err := store.RevokeKey(id.value);
    if err == Some(KeyNotFound) {
      return NOT_FOUND;
    }
    if err == Some(LastMaster) {
      return CONFLICT;
    }
    return OK;
  }

  /** The count of the guard, and what it means. */
  lemma LastExactly(keys: map<KeyId, Record>, id: KeyId)
    requires id in keys
    ensures IsActiveMaster(keys[id]) && |ActiveMasters(keys)| <= 1 <==> ActiveMasters(keys) == {id}
  {
    var all := ActiveMasters(keys);
    if IsActiveMaster(keys[id]) && |all| <= 1 {
      assert id in all && |all - {id}| == 0;
      assert all == {id};
    } else if all == {id} {
      assert id in all;
    }
  }
}
