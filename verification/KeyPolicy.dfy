/** Who may do what with an API key (pkg/auth/key.go). */
module KeyPolicy {
  import opened Wrappers

  const TYPE_AUTH := "auth"
  const TYPE_METRICS := "metrics"
  const ROLE_MASTER := "master"
  const ROLE_GUEST := "guest"

  const API_ACCESS := "api.access"
  const GENERATE_GUEST := "token.generate.guest"
  const GENERATE_MASTER := "token.generate.master"
  const GENERATE_METRICS := "token.generate.metrics"
  const TOKEN_REVOKE := "token.revoke"
  const TOKEN_LIST := "token.list"
  const METRICS_ACCESS := "metrics.access"

  datatype Status = Active | Revoked

  /** The digest of a key; the real one is assumed to be injective. Listings carry no digest. */
  datatype Hash = NoHash | Digest(token: string)

  /** The identifiers the program makes: by position in the configuration, or at random. */
  datatype KeyId = BootstrapAuth(position: nat) | BootstrapMetrics | Generated(tag: string)

  datatype Creator = SystemBootstrap | By(id: KeyId)

  /** The value of a stored key. */
  datatype Record = Record(
    id: KeyId, hash: Hash, keyType: string, role: string, status: Status, createdBy: Creator, lastUsedAt: Option<int>)

  datatype PolicyError = InvalidTypeRole | UnknownType | UnknownRole

  function ValidateCombination(keyType: string, role: string): Option<PolicyError> {
    if keyType == TYPE_METRICS && role == ROLE_GUEST then Some(InvalidTypeRole)
    else if keyType != TYPE_AUTH && keyType != TYPE_METRICS then Some(UnknownType)
    else if role != ROLE_MASTER && role != ROLE_GUEST then Some(UnknownRole)
    else None
  }

  function ListPermissions(k: Option<Record>): seq<string> {
    if k.None? || k.value.status != Active then []
    else if k.value.keyType == TYPE_AUTH && k.value.role == ROLE_MASTER then
      [API_ACCESS, GENERATE_GUEST, GENERATE_MASTER, GENERATE_METRICS, TOKEN_REVOKE, TOKEN_LIST, METRICS_ACCESS]
    else if k.value.keyType == TYPE_AUTH && k.value.role == ROLE_GUEST then [API_ACCESS, GENERATE_GUEST]
    else if k.value.keyType == TYPE_METRICS && k.value.role == ROLE_MASTER then [METRICS_ACCESS]
    else []
  }

  /** Three kinds of key are valid: AUTH master, AUTH guest and METRICS master. */
  lemma ValidExactly(keyType: string, role: string)
    ensures ValidateCombination(keyType, role).None? <==>
      (keyType == "auth" && role == "master") || (keyType == "auth" && role == "guest")
      || (keyType == "metrics" && role == "master")
    ensures ValidateCombination(keyType, role) == Some(InvalidTypeRole) <==> keyType == "metrics" && role == "guest"
    ensures ValidateCombination(keyType, role) == Some(UnknownType) <==> keyType !in {"auth", "metrics"}
  {
  }

  /** Who may do what: the whole table, permission by permission. */
  lemma PermissionsExactly(k: Option<Record>)
    ensures var perms := ListPermissions(k);
      var active := k.Some? && k.value.status == Active;
      var auth := active && k.value.keyType == "auth" && k.value.role in {"master", "guest"};
      var master := active && k.value.keyType == "auth" && k.value.role == "master";
      var metrics := active && k.value.keyType == "metrics" && k.value.role == "master";
      && ("api.access" in perms <==> auth)
      && ("token.generate.guest" in perms <==> auth)
      && ("token.generate.master" in perms <==> master)
      && ("token.generate.metrics" in perms <==> master)
      && ("token.revoke" in perms <==> master)
      && ("token.list" in perms <==> master)
      && ("metrics.access" in perms <==> master || metrics)
      && |perms| <= 7
  {
    var perms := ListPermissions(k);
    if perms != [] && k.value.keyType == TYPE_AUTH {
      assert perms[0] == "api.access" && perms[1] == "token.generate.guest";
      if k.value.role == ROLE_MASTER {
        assert perms[2] == "token.generate.master" && perms[3] == "token.generate.metrics";
        assert perms[4] == "token.revoke" && perms[5] == "token.list" && perms[6] == "metrics.access";
      }
    }
  }

  method HasPermission(k: Option<Record>, perm: string) returns (has: bool)
    ensures has <==> perm in ListPermissions(k)
  {
    var perms := ListPermissions(k);
    for i := 0 to |perms|
      invariant perm !in perms[..i]
    {
      if perms[i] == perm {
        return true;
      }
    }
    return false;
  }

  predicate CanGenerate(caller: Option<Record>, keyType: string, role: string) {
    if caller.None? || caller.value.status != Active then false
    else if ValidateCombination(keyType, role).Some? then false
    else if caller.value.keyType == TYPE_AUTH && caller.value.role == ROLE_MASTER then true
    else if caller.value.keyType == TYPE_AUTH && caller.value.role == ROLE_GUEST then
      keyType == TYPE_AUTH && role == ROLE_GUEST
    else false
  }

  /** The permission that names the kind of key to be made. */
  function PermissionTo(keyType: string, role: string): string {
    if keyType == TYPE_METRICS then GENERATE_METRICS
    else if role == ROLE_MASTER then GENERATE_MASTER
    else GENERATE_GUEST
  }

  /** The two ways the policy is written, as a decision and as a list, agree. */
  lemma CanGenerateExactly(caller: Option<Record>, keyType: string, role: string)
    ensures CanGenerate(caller, keyType, role) <==>
      ValidateCombination(keyType, role).None? && PermissionTo(keyType, role) in ListPermissions(caller)
  {
    var perms := ListPermissions(caller);
    if perms != [] && caller.value.keyType == TYPE_AUTH {
      assert perms[1] == GENERATE_GUEST;
      if caller.value.role == ROLE_MASTER {
        assert perms[2] == GENERATE_MASTER && perms[3] == GENERATE_METRICS;
      }
    }
  }

  /** No key can make a key that may do more than itself. */
  lemma NoEscalation(caller: Option<Record>, made: Record, perm: string)
    requires CanGenerate(caller, made.keyType, made.role) && perm in ListPermissions(Some(made))
    ensures perm in ListPermissions(caller)
  {
    var perms := ListPermissions(caller);
    if caller.value.role == ROLE_MASTER {
      assert perms[0] == API_ACCESS && perms[1] == GENERATE_GUEST && perms[6] == METRICS_ACCESS;
    }
  }

  predicate IsMaster(r: Record) {
    r.keyType == TYPE_AUTH && r.role == ROLE_MASTER
  }

  predicate IsActiveMaster(r: Record) {
    IsMaster(r) && r.status == Active
  }
}
