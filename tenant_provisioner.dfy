/**
 * The tenant provisioning hook run before an identity is created: it
 * derives a tenant name, creates one tenant record under a fresh id in one
 * all-or-nothing transaction, and answers with the custom claims that bind
 * the new identity to that tenant. Any failure is reported as an
 * `HttpsError`, which prevents the identity from being created.
 *
 * The `tenants` collection is a map from document id to record; the
 * transaction's outcome is an oracle parameter.
 */
module TenantProvisioner {
  import opened Common

  /** The identity being created; an absent or empty profile field is `None` or `""`. */
  datatype UserRecord = UserRecord(uid: string, displayName: Option<string>, email: Option<string>)

  datatype TenantStatus = Active

  /** A document of the `tenants` collection. */
  datatype Tenant = Tenant(name: string, ownerId: string, status: TenantStatus)

  /** The error type the identity platform reports to the client. */
  datatype HttpsError = HttpsError(code: string, message: string)

  /** What a failed transaction can throw. */
  datatype Thrown =
    | ThrownHttps(https: HttpsError)   // an `HttpsError`
    | ThrownError(message: string)     // any other `Error`
    | ThrownValue                      // a thrown value that is not an `Error`

  /** How the hook settles: custom claims for the new identity, or a rejection. */
  datatype HookResult =
    | Claims(tenantId: string)
    | Rejected(error: HttpsError)

  const INVALID_USER: HttpsError := HttpsError("invalid-argument", "User data is invalid - missing UID")
  const SETUP_FAILED_PREFIX: string := "Failed to set up tenant for user: "
  const UNKNOWN_ERROR: string := "Unknown error"

  /** The hook accepts the event only when it carries an identity with a non-empty uid. */
  predicate HasUid(data: Option<UserRecord>)
  {
    data.Some? && data.value.uid != ""
  }

  function Min(a: nat, b: nat): nat
  {
    if a < b then a else b
  }

  /**
   * The tenant name: the display name if it is non-empty, else the email if
   * it is non-empty, else "User " followed by the first eight characters
   * of the uid.
   */
  function TenantName(user: UserRecord): (name: string)
    ensures Truthy(user.displayName) ==> name == user.displayName.value
    ensures !Truthy(user.displayName) && Truthy(user.email) ==> name == user.email.value
    ensures !Truthy(user.displayName) && !Truthy(user.email) ==>
              && |name| == 5 + Min(8, |user.uid|)
              && name[..5] == "User "
              && name[5..] <= user.uid
    ensures user.uid != "" ==> name != ""
  {
    if Truthy(user.displayName) then user.displayName.value
    else if Truthy(user.email) then user.email.value
    else "User " + user.uid[..Min(8, |user.uid|)]
  }

  /** The fallback name never exceeds "User " plus eight characters. */
  lemma FallbackNameBounded(user: UserRecord)
    requires !Truthy(user.displayName) && !Truthy(user.email)
    ensures |TenantName(user)| <= 13
    ensures |user.uid| >= 8 ==> TenantName(user) == "User " + user.uid[..8]
  {
  }

  /**
   * The error the hook throws when the transaction fails: an `HttpsError`
   * unchanged, anything else wrapped as an "internal" error that carries
   * the original message when there is one.
   */
  function MapTransactionError(e: Thrown): (r: HttpsError)
    ensures e.ThrownHttps? ==> r == e.https
    ensures !e.ThrownHttps? ==>
              && r.code == "internal"
              && |r.message| >= |SETUP_FAILED_PREFIX|
              && r.message[..|SETUP_FAILED_PREFIX|] == SETUP_FAILED_PREFIX
              && r.message[|SETUP_FAILED_PREFIX|..] == (if e.ThrownError? then e.message else UNKNOWN_ERROR)
  {
    match e
    case ThrownHttps(h) => h
    case ThrownError(m) => HttpsError("internal", SETUP_FAILED_PREFIX + m)
    case ThrownValue => HttpsError("internal", SETUP_FAILED_PREFIX + UNKNOWN_ERROR)
  }

  /** The record the transaction writes for a new identity. */
  function NewTenant(user: UserRecord): (t: Tenant)
    ensures t.ownerId == user.uid && t.status == Active && t.name == TenantName(user)
  {
    Tenant(TenantName(user), user.uid, Active)
  }

  /**
   * The hook as a function of the store before it runs, the event's
   * identity, the id the store generates for the new document and the
   * transaction's outcome (`None` when it commits).
   */
  function Provision(tenants: map<string, Tenant>, data: Option<UserRecord>, newId: string,
                     failure: Option<Thrown>): (res: (map<string, Tenant>, HookResult))
    ensures !HasUid(data) ==> res == (tenants, Rejected(INVALID_USER))
    ensures HasUid(data) && failure.Some? ==>
              res == (tenants, Rejected(MapTransactionError(failure.value)))
    ensures HasUid(data) && failure.None? ==>
              && res.1 == Claims(newId)
              && newId in res.0
              && res.0[newId] == NewTenant(data.value)
              && res.0.Keys == tenants.Keys + {newId}
              && forall id :: id in tenants && id != newId ==> res.0[id] == tenants[id]
  {
    if !HasUid(data) then (tenants, Rejected(INVALID_USER))
    else if failure.Some? then (tenants, Rejected(MapTransactionError(failure.value)))
    else (tenants[newId := NewTenant(data.value)], Claims(newId))
  }

  /**
   * All or nothing: with a fresh id, the hook changes the store exactly
   * when it answers with claims, and then it adds exactly one record.
   */
  lemma ProvisionAllOrNothing(tenants: map<string, Tenant>, data: Option<UserRecord>, newId: string,
                              failure: Option<Thrown>)
    requires newId !in tenants
    ensures Provision(tenants, data, newId, failure).1.Rejected? <==>
            Provision(tenants, data, newId, failure).0 == tenants
    ensures Provision(tenants, data, newId, failure).1.Claims? ==>
            |Provision(tenants, data, newId, failure).0| == |tenants| + 1
  {
    var res := Provision(tenants, data, newId, failure);
    if res.1.Claims? {
      assert newId in res.0;
      assert res.0.Keys == tenants.Keys + {newId};
      assert |res.0.Keys| == |tenants.Keys| + 1;
    }
  }

  /**
   * The claims bind the identity to a tenant it owns: the `tenantId` names a
   * record that did not exist before and whose owner is the new identity.
   */
  lemma ClaimsNameOwnedTenant(tenants: map<string, Tenant>, data: Option<UserRecord>, newId: string,
                              failure: Option<Thrown>)
    requires newId !in tenants
    requires Provision(tenants, data, newId, failure).1.Claims?
    ensures var res := Provision(tenants, data, newId, failure);
            && data.Some?
            && res.1.tenantId !in tenants
            && res.1.tenantId in res.0
            && res.0[res.1.tenantId].ownerId == data.value.uid
            && res.0[res.1.tenantId].status == Active
  {
  }

  /**
   * Every rejection is an `HttpsError`: the invalid-argument one, one the
   * transaction threw, or an "internal" one.
   */
  lemma RejectionCodes(tenants: map<string, Tenant>, data: Option<UserRecord>, newId: string,
                       failure: Option<Thrown>)
    requires Provision(tenants, data, newId, failure).1.Rejected?
    ensures var e := Provision(tenants, data, newId, failure).1.error;
            || e == INVALID_USER
            || (failure.Some? && failure.value == ThrownHttps(e))
            || e.code == "internal"
  {
  }

  /** The greatest length of a key, an upper bound of every key's length. */
  ghost function MaxKeyLength(keys: set<string>): (n: nat)
    ensures forall k :: k in keys ==> |k| <= n
    decreases |keys|
  {
    if keys == {} then 0
    else
      var k :| k in keys;
      var rest := MaxKeyLength(keys - {k});
      if |k| > rest then |k| else rest
  }

  /** A string no key of the map uses: longer than all of them. */
  ghost function FreshId(tenants: map<string, Tenant>): (id: string)
    ensures id !in tenants
  {
    var n := MaxKeyLength(tenants.Keys);
    seq(n + 1, _ => 'x')
  }

  /** The `tenants` collection. */
  class TenantStore {
    var tenants: map<string, Tenant>

    constructor (initial: map<string, Tenant>)
      ensures tenants == initial
    {
      tenants := initial;
    }

    /**
     * The hook: `data` is the identity carried by the event and `failure`
     * the transaction's outcome. The store picks the new document's id, so
     * the contract holds for whichever fresh id it picks.
     */
    method AssignTenantIdOnCreate(data: Option<UserRecord>, failure: Option<Thrown>) returns (r: HookResult)
      modifies this
      ensures exists newId :: newId !in old(tenants) &&
                (tenants, r) == Provision(old(tenants), data, newId, failure)
    {
      if !HasUid(data) {
        r := Rejected(INVALID_USER);
        assert (tenants, r) == Provision(tenants, data, FreshId(tenants), failure);
        return;
      }
      var name := TenantName(data.value);
      ghost var before := tenants;
      assert FreshId(tenants) !in tenants;
      var createdTenantId :| createdTenantId !in tenants;
      if failure.Some? {
        r := Rejected(MapTransactionError(failure.value));
      } else {
        tenants := tenants[createdTenantId := Tenant(name, data.value.uid, Active)];
        r := Claims(createdTenantId);
      }
      assert (tenants, r) == Provision(before, data, createdTenantId, failure);
    }
  }
}
