/** What a key is good for: configured tokens and generated secrets authenticate, over whole runs,
    until the key is revoked. */
module KeyLaws {
  import opened Wrappers
  import opened KeyPolicy
  import opened KeyStore
  import opened KeyHandlers
  import opened KeySystem
  import opened KeyLockout

  /** The key `id` is found by its token. */
  ghost predicate Found(s: Store, id: KeyId, token: string) {
    && token != "" && id in s.keys && s.keys[id].hash == Digest(token)
    && Digest(token) in s.index && s.index[Digest(token)] == id
  }

  lemma StepKeepsFound(s: System, a: Action, id: KeyId, token: string)
    requires Found(s.store, id, token) && (a.Boot? ==> Do(s, a).store == s.store)
    ensures var k, k' := s.store.keys[id], Do(s, a).store.keys;
      && Found(Do(s, a).store, id, token)
      && k'[id].keyType == k.keyType && k'[id].role == k.role && k'[id].id == k.id
      && (k.status == Revoked ==> k'[id].status == Revoked)
      && (!(a.Revoke? && a.target == id) ==> k'[id].status == k.status)
  {
  }

  /** Found and active is to be authenticated. */
  lemma FoundAuthenticates(s: Store, id: KeyId, token: string)
    requires Found(s, id, token)
    ensures Authenticated(s, token) == if s.keys[id].status == Active then Some(s.keys[id]) else None
  {
  }

  predicate Spares(run: seq<Action>, id: KeyId) {
    forall k | 0 <= k < |run| && run[k].Revoke? :: run[k].target != id
  }

  /** A key that is found stays found; it authenticates exactly while it is active, and it stays
      active in every run that does not revoke it. */
  lemma {:induction false} KeyWorks(
    s: System, id: KeyId, token: string, run: seq<Action>, tokens: seq<string>, metrics: string)
    requires Inv(s) && Settled(s.store, tokens, metrics) && Repeats(run, tokens, metrics)
    requires Found(s.store, id, token)
    ensures var k, s' := s.store.keys[id], After(s, run).store;
      && Found(s', id, token)
      && s'.keys[id].keyType == k.keyType && s'.keys[id].role == k.role && s'.keys[id].id == k.id
      && (Authenticated(s', token).Some? <==> s'.keys[id].status == Active)
      && (Spares(run, id) ==> s'.keys[id].status == k.status)
  {
    hide Inv, Settled, Found, Authenticated, Do;
    if run != [] {
      var n := |run| - 1;
      KeyWorks(s, id, token, run[..n], tokens, metrics);
      RunSettled(s, run[..n], tokens, metrics);
      RunKeeps(s, run[..n]);
      var before := After(s, run[..n]);
      InvAgrees(before);
      StepSettled(before, run[n], tokens, metrics);
      StepKeepsFound(before, run[n], id, token);
      assert Spares(run, id) ==> Spares(run[..n], id);
    }
    FoundAuthenticates(After(s, run).store, id, token);
  }

  /** The secret of a generated key authenticates, as a key of the kind that was asked for, after
      every run that does not revoke it. */
  lemma GeneratedKeyWorks(s: System, a: Action, run: seq<Action>, tokens: seq<string>, metrics: string)
    requires Inv(s) && Settled(s.store, tokens, metrics) && Repeats(run, tokens, metrics)
    requires a.Generate? && KeyId.Generated(a.tag) !in s.store.keys
    requires KeyId.Generated(a.tag) in Do(s, a).store.keys && Spares(run, KeyId.Generated(a.tag))
    ensures var secret := RawKey(Lower(a.keyType), a.entropy);
      var r := Authenticated(After(Do(s, a), run).store, secret);
      && r.Some? && r.value.id == KeyId.Generated(a.tag) && r.value.status == Active
      && r.value.keyType == Lower(a.keyType) && r.value.role == Lower(a.role)
  {
    var id, secret := KeyId.Generated(a.tag), RawKey(Lower(a.keyType), a.entropy);
    StepKeeps(s, a);
    StepSettled(s, a, tokens, metrics);
    NewbornIsFound(s, a);
    hide Inv, Settled, Do, Found, Authenticated;
    KeyWorks(Do(s, a), id, secret, run, tokens, metrics);
    FoundAuthenticates(After(Do(s, a), run).store, id, secret);
  }

  lemma NewbornIsFound(s: System, a: Action)
    requires a.Generate? && KeyId.Generated(a.tag) !in s.store.keys && KeyId.Generated(a.tag) in Do(s, a).store.keys
    ensures var id := KeyId.Generated(a.tag);
      && Found(Do(s, a).store, id, RawKey(Lower(a.keyType), a.entropy))
      && Do(s, a).store.keys[id].status == Active && Do(s, a).store.keys[id].id == id
      && Do(s, a).store.keys[id].keyType == Lower(a.keyType) && Do(s, a).store.keys[id].role == Lower(a.role)
      && a.caller in s.sessions && Do(s, a).store.keys[id].createdBy == By(a.caller.id)
  {
    hide CanGenerate;
    NobodyGenerates(Lower(a.keyType), Lower(a.role));
  }

  /** Every key of the start is a bootstrap record. */
  lemma StartKeys(tokens: seq<string>, metrics: string)
    ensures var s := Start(tokens, metrics).store;
      && Agrees(s)
      && (forall id | id in s.keys :: s.keys[id].hash.Digest? && s.keys[id] == BootRecord(id, s.keys[id].hash.token))
      && (BootstrapMetrics in s.keys ==> s.keys[BootstrapMetrics].hash == Digest(TrimSpace(metrics)))
  {
    hide TrimSpace;
    BootKeeps(EMPTY, tokens, metrics);
    ConfiguredKeys(tokens);
  }

  lemma MetricsIsIndexed(tokens: seq<string>, metrics: string)
    requires TrimSpace(metrics) != ""
    ensures var s := Start(tokens, metrics).store; var h := Digest(TrimSpace(metrics));
      h in s.index && s.index[h] == BootstrapMetrics
  {
    hide TrimSpace;
    ConfiguredKeys(tokens);
    assert BootstrapMetrics !in IngestedAll(EMPTY, tokens).keys;
  }

  lemma TokenIsIndexed(tokens: seq<string>, metrics: string, k: nat)
    requires k < |tokens| && TrimSpace(tokens[k]) != ""
    ensures Digest(TrimSpace(tokens[k])) in Start(tokens, metrics).store.index
  {
    hide TrimSpace, Start;
    ConfiguredMaster(tokens, metrics, k);
    StartResolves(tokens, metrics);
  }

  /** Whatever is configured, duplicates included: every configured token that is not blank
      authenticates at the start, the metrics token as a METRICS master and every other one as an
      AUTH master. */
  lemma ConfiguredTokensWork(tokens: seq<string>, metrics: string, token: string)
    requires token != ""
    requires token == TrimSpace(metrics) || exists k :: 0 <= k < |tokens| && token == TrimSpace(tokens[k])
    ensures var r := Authenticated(Start(tokens, metrics).store, token);
      && r.Some? && r.value.status == Active && r.value.role == "master" && r.value.createdBy == SystemBootstrap
      && r.value.keyType == if token == TrimSpace(metrics) then "metrics" else "auth"
  {
    hide TrimSpace, Start;
    StartKeys(tokens, metrics);
    if token == TrimSpace(metrics) {
      MetricsIsIndexed(tokens, metrics);
    } else {
      var k :| 0 <= k < |tokens| && token == TrimSpace(tokens[k]);
      TokenIsIndexed(tokens, metrics, k);
    }
  }
}
