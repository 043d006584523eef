/** The in-memory key store as the program builds it (pkg/auth/store.go): two maps that share
    mutable keys, so that a change made through an identifier shows through the hash. */
module MemoryStore {
  import opened Wrappers
  import opened KeyPolicy
  import opened KeyStore

  class Key {
    const id: KeyId
    var hash: Hash
    const keyType: string
    const role: string
    var status: Status
    const createdBy: Creator
    var lastUsedAt: Option<int>

    constructor (r: Record)
      ensures Value() == r
    {
      id, hash, keyType, role := r.id, r.hash, r.keyType, r.role;
      status, createdBy, lastUsedAt := r.status, r.createdBy, r.lastUsedAt;
    }

    function Value(): Record
      reads this
    {
      Record(id, hash, keyType, role, status, createdBy, lastUsedAt)
    }
  }

  lemma NoneCounted(keys: map<KeyId, Record>, todo: set<KeyId>)
    requires todo == keys.Keys
    ensures |ActiveMasters(keys) - todo| == 0
  {
    assert ActiveMasters(keys) - todo == {};
  }

  lemma CountOne(keys: map<KeyId, Record>, todo: set<KeyId>, id: KeyId)
    requires id in todo && id in keys
    ensures |ActiveMasters(keys) - (todo - {id})| ==
      |ActiveMasters(keys) - todo| + if IsActiveMaster(keys[id]) then 1 else 0
  {
    var all := ActiveMasters(keys);
    assert all - (todo - {id}) == (all - todo) + if IsActiveMaster(keys[id]) then {id} else {};
  }

  class MemoryStore {
    var keysById: map<KeyId, Key>
    var keysByHash: map<Hash, Key>

    /** The two maps share their objects. */
    ghost predicate Valid()
      reads this, keysById.Values, keysByHash.Values
    {
      && (forall id | id in keysById :: keysById[id].id == id)
      && (forall h | h in keysByHash :: keysByHash[h].id in keysById
            && keysById[keysByHash[h].id] == keysByHash[h] && keysByHash[h].hash == h)
    }

    ghost function Model(): Store
      requires Valid()
      reads this, keysById.Values, keysByHash.Values
    {
      Store(map id | id in keysById :: keysById[id].Value(), map h | h in keysByHash :: keysByHash[h].id)
    }

    constructor ()
      ensures Valid() && Model() == EMPTY
    {
      keysById, keysByHash := map[], map[];
    }

    lemma IsModel(s: Store)
      requires Valid() && keysById.Keys == s.keys.Keys && keysByHash.Keys == s.index.Keys
      requires forall id | id in keysById :: keysById[id].Value() == s.keys[id]
      requires forall h | h in keysByHash :: keysByHash[h].id == s.index[h]
      ensures Model() == s
    {
    }

    /** Whatever is done to the store, its two maps agree. */
    lemma Agreement()
      requires Valid()
      ensures Agrees(Model())
      ensures forall h | h in keysByHash :: keysByHash[h].id in keysById && keysById[keysByHash[h].id] == keysByHash[h]
    {
    }

    /** A copy of the key goes under both maps. */
    method Put(key: Key)
      requires Valid() && forall h | h in keysByHash :: keysByHash[h].id != key.id
      modifies this
      ensures Valid() && Model() == old(Store(Model().keys[key.id := key.Value()], Model().index[key.hash := key.id]))
      ensures key.id in keysById && fresh(keysById[key.id]) && keysById == old(keysById)[key.id := keysById[key.id]]
    {
      ghost var s := Store(Model().keys[key.id := key.Value()], Model().index[key.hash := key.id]);
      var clone := new Key(key.Value());
      keysById := keysById[key.id := clone];
      keysByHash := keysByHash[key.hash := clone];
      IsModel(s);
    }

    method CreateKey(key: Key) returns (err: Option<StoreError>)
      requires Valid()
      modifies this
      ensures Valid() && Model() == old(Created(Model(), key.Value())) && err == old(CreateError(Model(), key.Value()))
      ensures err.Some? ==> keysById == old(keysById)
      ensures err.None? ==>
        key.id in keysById && fresh(keysById[key.id]) && keysById == old(keysById)[key.id := keysById[key.id]]
    {
      if key.id in keysById {
        return Some(DuplicateId);
      }
      if key.hash in keysByHash {
        return Some(DuplicateHash);
      }
      Put(key);
      return None;
    }

    /** If an old key with the identifier exists, its hash goes. */
    method DropHash(id: KeyId)
      requires Valid()
      modifies this`keysByHash
      ensures Valid() && forall h | h in keysByHash :: keysByHash[h].id != id
      ensures var s := old(Model());
        Model() == Store(s.keys, if id in s.keys then s.index - {s.keys[id].hash} else s.index)
    {
      ghost var s := Model();
      if id in keysById {
        keysByHash := keysByHash - {keysById[id].hash};
        IsModel(Store(s.keys, s.index - {s.keys[id].hash}));
      }
    }

    method UpsertKey(key: Key)
      requires Valid()
      modifies this
      ensures Valid() && Model() == old(Upserted(Model(), key.Value()))
      ensures key.id in keysById && fresh(keysById[key.id]) && keysById == old(keysById)[key.id := keysById[key.id]]
    {
      DropHash(key.id);
      Put(key);
    }

    /** A fresh copy, so that the caller cannot change the store through it. */
    method GetKey(id: KeyId) returns (key: Option<Key>)
      requires Valid()
      ensures key.None? <==> id !in Model().keys
      ensures key.Some? ==> fresh(key.value) && key.value.Value() == Model().keys[id]
    {
      if id !in keysById {
        return None;
      }
      var clone := new Key(keysById[id].Value());
      return Some(clone);
    }

    method GetKeyByHash(hash: Hash) returns (key: Option<Key>)
      requires Valid()
      ensures key.None? <==> Lookup(Model(), hash).None?
      ensures key.Some? ==> fresh(key.value) && Some(key.value.Value()) == Lookup(Model(), hash)
    {
      Agreement();
      if hash !in keysByHash {
        return None;
      }
      var clone := new Key(keysByHash[hash].Value());
      return Some(clone);
    }

    /** Every key once, as a fresh copy without its hash. */
    method ListKeys() returns (list: seq<Key>)
      requires Valid()
      ensures |list| == |Model().keys|
      ensures forall k | 0 <= k < |list| :: fresh(list[k]) && list[k].id in Model().keys
      ensures forall k | 0 <= k < |list| :: list[k].Value() == Model().keys[list[k].id].(hash := NoHash)
      ensures forall k, l | 0 <= k < l < |list| :: list[k].id != list[l].id
    {
      list := [];
      var todo := keysById.Keys;
      while todo != {}
        invariant todo <= keysById.Keys && |list| + |todo| == |keysById|
        invariant forall k | 0 <= k < |list| :: fresh(list[k]) && list[k].id in keysById.Keys - todo
        invariant forall k | 0 <= k < |list| :: list[k].Value() == keysById[list[k].id].Value().(hash := NoHash)
        invariant forall k, l | 0 <= k < l < |list| :: list[k].id != list[l].id
        decreases |todo|
      {
        var id :| id in todo;
        var clone := new Key(keysById[id].Value());
        clone.hash := NoHash;
        list := list + [clone];
        todo := todo - {id};
      }
      assert Model().keys.Keys == keysById.Keys;
    }

    method CountActiveMasterAuthKeys() returns (count: nat)
      requires Valid()
      ensures count == |ActiveMasters(Model().keys)|
    {
      hide ActiveMasters;
      count := 0;
      var todo := keysById.Keys;
      ghost var keys := Model().keys;
      NoneCounted(keys, todo);
      while todo != {}
        invariant todo <= keysById.Keys && count == |ActiveMasters(keys) - todo|
        decreases |todo|
      {
        var id :| id in todo;
        var k := keysById[id];
        CountOne(keys, todo, id);
        if k.keyType == TYPE_AUTH && k.role == ROLE_MASTER && k.status == Active {
          count := count + 1;
        }
        todo := todo - {id};
      }
      assert ActiveMasters(keys) - {} == ActiveMasters(keys);
    }

    method RevokeKey(id: KeyId) returns (err: Option<StoreError>)
      requires Valid()
      modifies keysById.Values
      ensures Valid() && Model() == old(RevokedIn(Model(), id)) && err == old(RevokeError(Model(), id))
    {
      hide ActiveMasters;
      if id !in keysById {
        return Some(KeyNotFound);
      }
      var key := keysById[id];
      ghost var s := RevokedIn(Model(), id);
      assert Model().keys[id] == key.Value();
      if key.status == Revoked {
        IsModel(s);
        return None;
      }
      if key.keyType == TYPE_AUTH && key.role == ROLE_MASTER {
        var count := CountActiveMasterAuthKeys();
        if count <= 1 {
          return Some(LastMaster);
        }
      }
      key.status := Revoked;
      IsModel(s);
      return None;
    }

    method TouchKey(id: KeyId, now: int)
      requires Valid()
      modifies keysById.Values
      ensures Valid() && Model() == old(Touched(Model(), id, now))
      ensures var s := old(Model());
        Model() == Store(if id in s.keys then s.keys[id := s.keys[id].(lastUsedAt := Some(now))] else s.keys, s.index)
    {
      if id in keysById {
        keysById[id].lastUsedAt := Some(now);
      }
    }
  }
}
