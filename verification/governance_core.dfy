/**
 * Governance core contract (contracts/governance-core/src/lib.rs): one-time
 * initialisation with default parameters, admin-gated role grants and
 * revocations with a per-role counter, expiry-aware role checks, and wholesale
 * replacement of the governance parameters.
 *
 * `GovernanceCore` states each entry point as a function from the contract's
 * storage to its new storage or a panic; `GovernanceCoreContract.Contract`
 * is the contract itself, whose methods update its storage in place and are
 * proved to follow those functions.
 */
module GovernanceCore {
  import opened Wrappers
  import opened Soroban

  datatype Role = Admin | Moderator | Oracle | Operator

  datatype RoleGrant = RoleGrant(role: Role, grantedBy: Address, grantedAt: u64, expiresAt: Option<u64>)

  datatype GovernanceParams = GovernanceParams(
    minProposalThreshold: i128,
    votingPeriodLedgers: u32,
    quorumPct: u32,
    passThresholdPct: u32,
    timelockLedgers: u32,
    maxActiveProposals: u32)

  const DefaultParams := GovernanceParams(1_000_000, 10_000, 10, 51, 1_000, 20)

  /** Events published by the contract: `(("role", "granted"), account)`. */
  datatype Event = RoleGranted(account: Address)

  /**
   * The contract's storage, one field per `DataKey`: `Admin`,
   * `GovernanceParams`, `ActiveProposalCount` and `RoleCount(role)` live in
   * instance storage, `RoleGrant(account, role)` in persistent storage. A key
   * that was never written is `None` or absent from its map. `events` is the
   * log of published events.
   */
  datatype Storage = Storage(
    admin: Option<Address>,
    params: Option<GovernanceParams>,
    activeProposalCount: Option<u32>,
    roleCounts: map<Role, nat>,
    roleGrants: map<(Address, Role), RoleGrant>,
    events: seq<Event>)

  const Fresh := Storage(None, None, None, map[], map[], [])

  /** A panic discards the invocation's writes; otherwise its new storage stays. */
  function Commit(s: Storage, r: Result<Storage, Panic>): Storage {
    if r.Success? then r.value else s
  }

  /** `RoleCount(role)` read with `unwrap_or(0)`. */
  function RoleCount(s: Storage, role: Role): nat {
    if role in s.roleCounts then s.roleCounts[role] else 0
  }

  /** `admin.require_auth()`, then the stored admin read with `unwrap()`, then the equality check. */
  function CheckAdmin(s: Storage, env: Env, admin: Address): Outcome<Panic> {
    if admin !in env.authorized then Fail(AuthFailed(admin))
    else if s.admin.None? then Fail(UnwrapOnNone)
    else if admin != s.admin.value then Fail(Unauthorized)
    else Pass
  }

  function Initialize(s: Storage, env: Env, admin: Address): Result<Storage, Panic> {
    if s.admin.Some? then Failure(AlreadyInitialized)
    else if admin !in env.authorized then Failure(AuthFailed(admin))
    else Success(s.(admin := Some(admin), params := Some(DefaultParams), activeProposalCount := Some(0)))
  }

  function GrantRole(s: Storage, env: Env, admin: Address, account: Address, role: Role, expiresAt: Option<u64>)
    : Result<Storage, Panic>
  {
    match CheckAdmin(s, env, admin)
    case Fail(p) => Failure(p)
    case Pass =>
      Success(s.(
        roleGrants := s.roleGrants[(account, role) := RoleGrant(role, admin, env.timestamp, expiresAt)],
        roleCounts := s.roleCounts[role := RoleCount(s, role) + 1],
        events := s.events + [RoleGranted(account)]))
  }

  function RevokeRole(s: Storage, env: Env, admin: Address, account: Address, role: Role): Result<Storage, Panic> {
    match CheckAdmin(s, env, admin)
    case Fail(p) => Failure(p)
    case Pass =>
      var count := RoleCount(s, role);
      Success(s.(
        roleGrants := s.roleGrants - {(account, role)},
        roleCounts := if count > 0 then s.roleCounts[role := count - 1] else s.roleCounts))
  }

  function HasRole(s: Storage, env: Env, account: Address, role: Role): bool {
    if (account, role) in s.roleGrants then
      match s.roleGrants[(account, role)].expiresAt
      case Some(expires) => expires > env.timestamp
      case None => true
    else false
  }

  function UpdateParams(s: Storage, env: Env, admin: Address, params: GovernanceParams): Result<Storage, Panic> {
    match CheckAdmin(s, env, admin)
    case Fail(p) => Failure(p)
    case Pass => Success(s.(params := Some(params)))
  }

  function GetParams(s: Storage): Result<GovernanceParams, Panic> {
    if s.params.Some? then Success(s.params.value) else Failure(NotInitialized)
  }

  function GetRoleGrant(s: Storage, account: Address, role: Role): Option<RoleGrant> {
    if (account, role) in s.roleGrants then Some(s.roleGrants[(account, role)]) else None
  }

  // ---------------------------------------------------------------------------
  // Properties

  /** A second initialize panics with "already initialized" and changes nothing. */
  lemma InitializeOnlyOnce(s: Storage, env: Env, admin: Address, env': Env, admin': Address)
    requires Initialize(s, env, admin).Success?
    ensures Initialize(Initialize(s, env, admin).value, env', admin') == Failure(AlreadyInitialized)
  {
  }

  /** After initialize the parameters are the defaults, no proposal is active, and the caller is the admin. */
  lemma InitializeSetsDefaults(env: Env, admin: Address)
    requires admin in env.authorized
    ensures var r := Initialize(Fresh, env, admin);
      r.Success? && GetParams(r.value) == Success(DefaultParams) &&
      r.value.activeProposalCount == Some(0) && r.value.admin == Some(admin)
  {
  }

  /** Before initialize, get_params panics with "not initialized". */
  lemma GetParamsBeforeInit()
    ensures GetParams(Fresh) == Failure(NotInitialized)
  {
  }

  /** An authenticated caller who is not the stored admin is turned away by every admin-gated entry point. */
  lemma NonAdminIsUnauthorized(s: Storage, env: Env, caller: Address, account: Address, role: Role,
                               expiresAt: Option<u64>, params: GovernanceParams)
    requires s.admin.Some? && caller != s.admin.value && caller in env.authorized
    ensures GrantRole(s, env, caller, account, role, expiresAt) == Failure(Unauthorized)
    ensures RevokeRole(s, env, caller, account, role) == Failure(Unauthorized)
    ensures UpdateParams(s, env, caller, params) == Failure(Unauthorized)
  {
  }

  /**
   * grant_role stores the grant made by the admin at the current time and adds
   * exactly one to the role's count, even when the account already held the
   * role; no other grant and no other role's count changes.
   */
  lemma GrantRoleEffect(s: Storage, env: Env, admin: Address, account: Address, role: Role, expiresAt: Option<u64>)
    requires GrantRole(s, env, admin, account, role, expiresAt).Success?
    ensures var t := GrantRole(s, env, admin, account, role, expiresAt).value;
      && GetRoleGrant(t, account, role) == Some(RoleGrant(role, admin, env.timestamp, expiresAt))
      && admin == s.admin.value
      && RoleCount(t, role) == RoleCount(s, role) + 1
      && (forall r :: r != role ==> RoleCount(t, r) == RoleCount(s, r))
      && (forall a, r :: (a, r) != (account, role) ==> GetRoleGrant(t, a, r) == GetRoleGrant(s, a, r))
      && t.admin == s.admin && t.params == s.params && t.activeProposalCount == s.activeProposalCount
  {
  }

  /**
   * revoke_role removes the grant and takes one off the role's count only when
   * the count is positive, so the count never goes below zero.
   */
  lemma RevokeRoleEffect(s: Storage, env: Env, admin: Address, account: Address, role: Role)
    requires RevokeRole(s, env, admin, account, role).Success?
    ensures var t := RevokeRole(s, env, admin, account, role).value;
      && GetRoleGrant(t, account, role) == None
      && !HasRole(t, env, account, role)
      && RoleCount(t, role) == (if RoleCount(s, role) > 0 then RoleCount(s, role) - 1 else 0)
      && (forall r :: r != role ==> RoleCount(t, r) == RoleCount(s, r))
      && (forall a, r :: (a, r) != (account, role) ==> GetRoleGrant(t, a, r) == GetRoleGrant(s, a, r))
      && t == s.(roleGrants := t.roleGrants, roleCounts := t.roleCounts)
  {
  }

  /** has_role: a grant exists, and it never expires or expires strictly after now. */
  lemma HasRoleMeaning(s: Storage, env: Env, account: Address, role: Role)
    ensures HasRole(s, env, account, role) <==>
              GetRoleGrant(s, account, role).Some? &&
              var g := GetRoleGrant(s, account, role).value;
              (g.expiresAt.None? || g.expiresAt.value > env.timestamp)
  {
  }

  /** A grant is visible to has_role at the moment it is made, unless its expiry is not after that moment. */
  lemma GrantThenHasRole(s: Storage, env: Env, admin: Address, account: Address, role: Role, expiresAt: Option<u64>)
    requires GrantRole(s, env, admin, account, role, expiresAt).Success?
    ensures HasRole(GrantRole(s, env, admin, account, role, expiresAt).value, env, account, role) <==>
              (expiresAt.None? || expiresAt.value > env.timestamp)
  {
  }

  /** Granting a role and revoking it again leaves the role's count where it was. */
  lemma GrantThenRevokeRestoresCount(s: Storage, env: Env, admin: Address, account: Address, role: Role,
                                     expiresAt: Option<u64>)
    requires GrantRole(s, env, admin, account, role, expiresAt).Success?
    ensures var t := GrantRole(s, env, admin, account, role, expiresAt).value;
      RevokeRole(t, env, admin, account, role).Success? &&
      RoleCount(RevokeRole(t, env, admin, account, role).value, role) == RoleCount(s, role)
  {
  }

  /** update_params replaces the parameters wholesale, get_params returns them, and nothing else is touched. */
  lemma UpdateParamsEffect(s: Storage, env: Env, admin: Address, params: GovernanceParams)
    requires UpdateParams(s, env, admin, params).Success?
    ensures var t := UpdateParams(s, env, admin, params).value;
      GetParams(t) == Success(params) && t == s.(params := Some(params))
  {
  }

  /**
   * RoleCount(role) counts grants minus revocations, not accounts holding the
   * role: revoking the role from an account that never had it still lowers the
   * count, here to zero while another account keeps the role.
   */
  lemma RoleCountIsNotHolderCount(env: Env)
    requires "A" in env.authorized
    ensures var s1 := Initialize(Fresh, env, "A").value;
      var s2 := GrantRole(s1, env, "A", "B", Moderator, None).value;
      var s3 := RevokeRole(s2, env, "A", "C", Moderator).value;
      RoleCount(s3, Moderator) == 0 && HasRole(s3, env, "B", Moderator)
  {
  }

  // ---------------------------------------------------------------------------
  // An invariant kept by every entry point

  /** Every entry point that changes storage, with its arguments. */
  datatype Call =
    | CallInitialize(admin: Address)
    | CallGrantRole(admin: Address, account: Address, role: Role, expiresAt: Option<u64>)
    | CallRevokeRole(admin: Address, account: Address, role: Role)
    | CallUpdateParams(admin: Address, params: GovernanceParams)

  function Invoke(s: Storage, env: Env, call: Call): Result<Storage, Panic> {
    match call
    case CallInitialize(admin) => Initialize(s, env, admin)
    case CallGrantRole(admin, account, role, expiresAt) => GrantRole(s, env, admin, account, role, expiresAt)
    case CallRevokeRole(admin, account, role) => RevokeRole(s, env, admin, account, role)
    case CallUpdateParams(admin, params) => UpdateParams(s, env, admin, params)
  }

  /**
   * Before initialisation nothing is stored; afterwards parameters and the
   * proposal count are present, and every stored grant was made by the admin
   * and is filed under its own role.
   */
  ghost predicate Consistent(s: Storage) {
    && (s.admin.None? ==> s.params.None? && s.activeProposalCount.None? && s.roleGrants == map[] && s.roleCounts == map[])
    && (s.admin.Some? ==> s.params.Some? && s.activeProposalCount.Some?)
    && (forall k :: k in s.roleGrants ==> s.roleGrants[k].grantedBy == s.admin.value && s.roleGrants[k].role == k.1)
  }

  lemma FreshIsConsistent()
    ensures Consistent(Fresh)
  {
  }

  /** Every invocation, whether it succeeds or panics, keeps the storage consistent. */
  lemma InvokeKeepsConsistent(s: Storage, env: Env, call: Call)
    requires Consistent(s)
    ensures Consistent(Commit(s, Invoke(s, env, call)))
  {
  }

  /** Once initialised, get_params never panics again. */
  lemma {:induction false} GetParamsAfterInit(s: Storage, env: Env, calls: seq<Call>)
    requires Consistent(s) && s.admin.Some?
    ensures GetParams(Run(s, env, calls)).Success?
    decreases |calls|
  {
    if calls != [] {
      InvokeKeepsConsistent(s, env, calls[0]);
      GetParamsAfterInit(Commit(s, Invoke(s, env, calls[0])), env, calls[1..]);
    }
  }

  /** Storage after a sequence of invocations, each either committed or rolled back. */
  function Run(s: Storage, env: Env, calls: seq<Call>): (t: Storage)
    ensures s.admin.Some? ==> t.admin == s.admin
    decreases |calls|
  {
    if calls == [] then s else Run(Commit(s, Invoke(s, env, calls[0])), env, calls[1..])
  }
}

/** The governance contract as an object whose storage its entry points update in place. */
module GovernanceCoreContract {
  import opened Wrappers
  import opened Soroban
  import opened GovernanceCore

  class Contract {
    var admin: Option<Address>
    var params: Option<GovernanceParams>
    var activeProposalCount: Option<u32>
    var roleCounts: map<Role, nat>
    var roleGrants: map<(Address, Role), RoleGrant>
    var events: seq<Event>

    function State(): Storage
      reads this
    {
      Storage(admin, params, activeProposalCount, roleCounts, roleGrants, events)
    }

    /** A freshly deployed contract: nothing stored yet. */
    constructor ()
      ensures State() == Fresh
    {
      admin, params, activeProposalCount := None, None, None;
      roleCounts, roleGrants, events := map[], map[], [];
    }

    method Initialize(env: Env, admin: Address) returns (outcome: Outcome<Panic>)
      modifies this
      ensures var r := GovernanceCore.Initialize(old(State()), env, admin);
        State() == Commit(old(State()), r) && (outcome == Pass <==> r.Success?)
      ensures outcome.Fail? ==> outcome.error == GovernanceCore.Initialize(old(State()), env, admin).error
    {
      if this.admin.Some? {
        return Fail(AlreadyInitialized);
      }
      if admin !in env.authorized {
        return Fail(AuthFailed(admin));
      }
      this.admin := Some(admin);
      params := Some(DefaultParams);
      activeProposalCount := Some(0);
      return Pass;
    }

    /** Shared admin gate of grant_role, revoke_role and update_params. */
    method RequireAdmin(env: Env, admin: Address) returns (outcome: Outcome<Panic>)
      ensures outcome == CheckAdmin(State(), env, admin)
    {
      if admin !in env.authorized {
        return Fail(AuthFailed(admin));
      }
      var storedAdmin := this.admin;
      if storedAdmin.None? {
        return Fail(UnwrapOnNone);
      }
      if admin != storedAdmin.value {
        return Fail(Unauthorized);
      }
      return Pass;
    }

    method GrantRole(env: Env, admin: Address, account: Address, role: Role, expiresAt: Option<u64>)
      returns (outcome: Outcome<Panic>)
      modifies this
      ensures var r := GovernanceCore.GrantRole(old(State()), env, admin, account, role, expiresAt);
        State() == Commit(old(State()), r) && (outcome == Pass <==> r.Success?)
      ensures outcome.Fail? ==> outcome.error == GovernanceCore.GrantRole(old(State()), env, admin, account, role, expiresAt).error
    {
      outcome := RequireAdmin(env, admin);
      if outcome.Fail? {
        return;
      }
      var grant := RoleGrant(role, admin, env.timestamp, expiresAt);
      roleGrants := roleGrants[(account, role) := grant];
      var count := if role in roleCounts then roleCounts[role] else 0;
      roleCounts := roleCounts[role := count + 1];
      events := events + [RoleGranted(account)];
    }

    method RevokeRole(env: Env, admin: Address, account: Address, role: Role) returns (outcome: Outcome<Panic>)
      modifies this
      ensures var r := GovernanceCore.RevokeRole(old(State()), env, admin, account, role);
        State() == Commit(old(State()), r) && (outcome == Pass <==> r.Success?)
      ensures outcome.Fail? ==> outcome.error == GovernanceCore.RevokeRole(old(State()), env, admin, account, role).error
    {
      outcome := RequireAdmin(env, admin);
      if outcome.Fail? {
        return;
      }
      roleGrants := roleGrants - {(account, role)};
      var count := if role in roleCounts then roleCounts[role] else 0;
      if count > 0 {
        roleCounts := roleCounts[role := count - 1];
      }
    }

    /** has_role: a read-only query. */
    method HasRole(env: Env, account: Address, role: Role) returns (held: bool)
      ensures held <==> (account, role) in roleGrants &&
                        (roleGrants[(account, role)].expiresAt.None? ||
                         roleGrants[(account, role)].expiresAt.value > env.timestamp)
      ensures held == GovernanceCore.HasRole(State(), env, account, role)
    {
      if (account, role) in roleGrants {
        var grant := roleGrants[(account, role)];
        match grant.expiresAt
        case Some(expires) => held := expires > env.timestamp;
        case None => held := true;
      } else {
        held := false;
      }
    }

    method UpdateParams(env: Env, admin: Address, params: GovernanceParams) returns (outcome: Outcome<Panic>)
      modifies this
      ensures var r := GovernanceCore.UpdateParams(old(State()), env, admin, params);
        State() == Commit(old(State()), r) && (outcome == Pass <==> r.Success?)
      ensures outcome.Fail? ==> outcome.error == GovernanceCore.UpdateParams(old(State()), env, admin, params).error
    {
      outcome := RequireAdmin(env, admin);
      if outcome.Fail? {
        return;
      }
      this.params := Some(params);
    }

    /** get_params: the stored parameters, or a "not initialized" panic. */
    method GetParams() returns (r: Result<GovernanceParams, Panic>)
      ensures r.Success? <==> params.Some?
      ensures r.Success? ==> r.value == params.value
      ensures r.Failure? ==> r.error == NotInitialized
    {
      if params.None? {
        return Failure(NotInitialized);
      }
      return Success(params.value);
    }

    /** get_role_grant: exactly the stored grant, if any. */
    method GetRoleGrant(account: Address, role: Role) returns (grant: Option<RoleGrant>)
      ensures grant.Some? <==> (account, role) in roleGrants
      ensures grant.Some? ==> grant.value == roleGrants[(account, role)]
    {
      if (account, role) in roleGrants {
        return Some(roleGrants[(account, role)]);
      }
      return None;
    }
  }
}
