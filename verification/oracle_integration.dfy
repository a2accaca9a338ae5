/**
 * Oracle integration contract (contracts/oracle-integration/src/lib.rs): an
 * admin-gated allow-list of oracles, and last-write-wins price and
 * performance feeds keyed by asset symbol and campaign id that only an
 * authorised oracle may write.
 *
 * `OracleIntegration` states each entry point as a function from storage to
 * new storage or a panic; `OracleIntegrationContract.Contract` updates its
 * storage in place and is proved to follow those functions.
 */
module OracleIntegration {
  import opened Wrappers
  import opened Soroban

  datatype PriceFeed = PriceFeed(asset: string, priceUsd: i128, confidence: u32, timestamp: u64, source: string)

  datatype PerformanceData = PerformanceData(
    campaignId: u64, impressions: u64, clicks: u64, conversions: u64, fraudScore: u32, timestamp: u64)

  /** `(("oracle", "price"), (asset, price_usd))` and `(("oracle", "perf"), campaign_id)`. */
  datatype Event = PriceUpdated(asset: string, priceUsd: i128) | PerformanceUpdated(campaignId: u64)

  /**
   * One field per `DataKey` in use: `Admin` and `OracleCount` in instance
   * storage; `AuthorizedOracle(addr)`, `PriceFeed(asset)` and
   * `PerformanceData(id)` in persistent storage. Only `true` is ever stored
   * under `AuthorizedOracle`, so that key is the set of addresses holding it.
   */
  datatype Storage = Storage(
    admin: Option<Address>,
    oracleCount: Option<nat>,
    authorized: set<Address>,
    priceFeeds: map<string, PriceFeed>,
    performance: map<u64, PerformanceData>,
    events: seq<Event>)

  const Fresh := Storage(None, None, {}, map[], map[], [])

  function Commit(s: Storage, r: Result<Storage, Panic>): Storage {
    if r.Success? then r.value else s
  }

  /** `OracleCount` read with `unwrap_or(0)`. */
  function OracleCount(s: Storage): nat {
    s.oracleCount.GetOr(0)
  }

  function CheckAdmin(s: Storage, env: Env, admin: Address): Outcome<Panic> {
    if admin !in env.authorized then Fail(AuthFailed(admin))
    else if s.admin.None? then Fail(UnwrapOnNone)
    else if admin != s.admin.value then Fail(Unauthorized)
    else Pass
  }

  /** `oracle.require_auth()` followed by `_require_oracle`. */
  function CheckOracle(s: Storage, env: Env, oracle: Address): Outcome<Panic> {
    if oracle !in env.authorized then Fail(AuthFailed(oracle))
    else if !IsOracleAuthorized(s, oracle) then Fail(NotAuthorizedOracle)
    else Pass
  }

  function Initialize(s: Storage, env: Env, admin: Address): Result<Storage, Panic> {
    if s.admin.Some? then Failure(AlreadyInitialized)
    else if admin !in env.authorized then Failure(AuthFailed(admin))
    else Success(s.(admin := Some(admin), oracleCount := Some(0)))
  }

  function AuthorizeOracle(s: Storage, env: Env, admin: Address, oracle: Address): Result<Storage, Panic> {
    match CheckAdmin(s, env, admin)
    case Fail(p) => Failure(p)
    case Pass => Success(s.(authorized := s.authorized + {oracle}, oracleCount := Some(OracleCount(s) + 1)))
  }

  function RevokeOracle(s: Storage, env: Env, admin: Address, oracle: Address): Result<Storage, Panic> {
    match CheckAdmin(s, env, admin)
    case Fail(p) => Failure(p)
    case Pass => Success(s.(authorized := s.authorized - {oracle}))
  }

  function UpdatePrice(s: Storage, env: Env, oracle: Address, asset: string, priceUsd: i128, confidence: u32,
                       source: string): Result<Storage, Panic>
  {
    match CheckOracle(s, env, oracle)
    case Fail(p) => Failure(p)
    case Pass =>
      Success(s.(
        priceFeeds := s.priceFeeds[asset := PriceFeed(asset, priceUsd, confidence, env.timestamp, source)],
        events := s.events + [PriceUpdated(asset, priceUsd)]))
  }

  function UpdatePerformance(s: Storage, env: Env, oracle: Address, campaignId: u64, impressions: u64, clicks: u64,
                             conversions: u64, fraudScore: u32): Result<Storage, Panic>
  {
    match CheckOracle(s, env, oracle)
    case Fail(p) => Failure(p)
    case Pass =>
      Success(s.(
        performance := s.performance[campaignId :=
          PerformanceData(campaignId, impressions, clicks, conversions, fraudScore, env.timestamp)],
        events := s.events + [PerformanceUpdated(campaignId)]))
  }

  function GetPrice(s: Storage, asset: string): Option<PriceFeed> {
    if asset in s.priceFeeds then Some(s.priceFeeds[asset]) else None
  }

  function GetPerformance(s: Storage, campaignId: u64): Option<PerformanceData> {
    if campaignId in s.performance then Some(s.performance[campaignId]) else None
  }

  /** `AuthorizedOracle(oracle)` read with `unwrap_or(false)`. */
  function IsOracleAuthorized(s: Storage, oracle: Address): bool {
    oracle in s.authorized
  }

  // ---------------------------------------------------------------------------
  // Properties

  lemma InitializeOnlyOnce(s: Storage, env: Env, admin: Address, env': Env, admin': Address)
    requires Initialize(s, env, admin).Success?
    ensures Initialize(Initialize(s, env, admin).value, env', admin') == Failure(AlreadyInitialized)
  {
  }

  lemma InitializeStartsCount(env: Env, admin: Address)
    requires admin in env.authorized
    ensures var r := Initialize(Fresh, env, admin);
      r.Success? && r.value.admin == Some(admin) && r.value.oracleCount == Some(0) && r.value.authorized == {}
  {
  }

  /** An authenticated caller who is not the stored admin cannot change the allow-list. */
  lemma NonAdminIsUnauthorized(s: Storage, env: Env, caller: Address, oracle: Address)
    requires s.admin.Some? && caller != s.admin.value && caller in env.authorized
    ensures AuthorizeOracle(s, env, caller, oracle) == Failure(Unauthorized)
    ensures RevokeOracle(s, env, caller, oracle) == Failure(Unauthorized)
  {
  }

  /**
   * authorize_oracle puts the oracle on the list and adds one to the count,
   * even when it was already there; revoke_oracle takes it off and leaves the
   * count alone. Neither touches another oracle or a feed.
   */
  lemma AllowListEffects(s: Storage, env: Env, admin: Address, oracle: Address)
    ensures AuthorizeOracle(s, env, admin, oracle).Success? ==>
      var t := AuthorizeOracle(s, env, admin, oracle).value;
      && IsOracleAuthorized(t, oracle)
      && OracleCount(t) == OracleCount(s) + 1
      && (forall o :: o != oracle ==> IsOracleAuthorized(t, o) == IsOracleAuthorized(s, o))
      && t.priceFeeds == s.priceFeeds && t.performance == s.performance
    ensures RevokeOracle(s, env, admin, oracle).Success? ==>
      var t := RevokeOracle(s, env, admin, oracle).value;
      && !IsOracleAuthorized(t, oracle)
      && OracleCount(t) == OracleCount(s)
      && (forall o :: o != oracle ==> IsOracleAuthorized(t, o) == IsOracleAuthorized(s, o))
      && t.priceFeeds == s.priceFeeds && t.performance == s.performance
  {
  }

  /** An oracle is not authorised on a fresh contract, is after authorize_oracle, and is not after revoke_oracle. */
  lemma AuthorizationLifecycle(env: Env, admin: Address, oracle: Address)
    requires admin in env.authorized
    ensures !IsOracleAuthorized(Fresh, oracle)
    ensures var s1 := Initialize(Fresh, env, admin).value;
      var s2 := AuthorizeOracle(s1, env, admin, oracle).value;
      var s3 := RevokeOracle(s2, env, admin, oracle).value;
      IsOracleAuthorized(s2, oracle) && !IsOracleAuthorized(s3, oracle) && OracleCount(s3) == 1
  {
  }

  /** Feed writes from an address that is not on the allow-list panic with "not authorized oracle" and store nothing. */
  lemma UnauthorizedOracleRejected(s: Storage, env: Env, oracle: Address, asset: string, priceUsd: i128,
                                   confidence: u32, source: string, campaignId: u64, impressions: u64,
                                   clicks: u64, conversions: u64, fraudScore: u32)
    requires oracle in env.authorized && !IsOracleAuthorized(s, oracle)
    ensures UpdatePrice(s, env, oracle, asset, priceUsd, confidence, source) == Failure(NotAuthorizedOracle)
    ensures UpdatePerformance(s, env, oracle, campaignId, impressions, clicks, conversions, fraudScore)
              == Failure(NotAuthorizedOracle)
    ensures Commit(s, UpdatePrice(s, env, oracle, asset, priceUsd, confidence, source)) == s
  {
  }

  /** A feed write succeeds exactly for an authenticated oracle on the allow-list. */
  lemma FeedWriteAllowedIff(s: Storage, env: Env, oracle: Address, asset: string, priceUsd: i128,
                            confidence: u32, source: string)
    ensures UpdatePrice(s, env, oracle, asset, priceUsd, confidence, source).Success? <==>
              oracle in env.authorized && IsOracleAuthorized(s, oracle)
  {
  }

  /**
   * update_price overwrites the feed for its asset with the given values and
   * the ledger time, so get_price returns exactly that; every other asset's
   * feed, every performance record and the allow-list stay as they were.
   */
  lemma UpdatePriceThenGet(s: Storage, env: Env, oracle: Address, asset: string, priceUsd: i128, confidence: u32,
                           source: string)
    requires UpdatePrice(s, env, oracle, asset, priceUsd, confidence, source).Success?
    ensures var t := UpdatePrice(s, env, oracle, asset, priceUsd, confidence, source).value;
      && GetPrice(t, asset) == Some(PriceFeed(asset, priceUsd, confidence, env.timestamp, source))
      && (forall a :: a != asset ==> GetPrice(t, a) == GetPrice(s, a))
      && (forall c :: GetPerformance(t, c) == GetPerformance(s, c))
      && t.authorized == s.authorized && t.oracleCount == s.oracleCount
  {
  }

  /** update_performance overwrites only the record of its campaign, which get_performance then returns. */
  lemma UpdatePerformanceThenGet(s: Storage, env: Env, oracle: Address, campaignId: u64, impressions: u64,
                                 clicks: u64, conversions: u64, fraudScore: u32)
    requires UpdatePerformance(s, env, oracle, campaignId, impressions, clicks, conversions, fraudScore).Success?
    ensures var t := UpdatePerformance(s, env, oracle, campaignId, impressions, clicks, conversions, fraudScore).value;
      && GetPerformance(t, campaignId) ==
           Some(PerformanceData(campaignId, impressions, clicks, conversions, fraudScore, env.timestamp))
      && (forall c :: c != campaignId ==> GetPerformance(t, c) == GetPerformance(s, c))
      && (forall a :: GetPrice(t, a) == GetPrice(s, a))
      && t.authorized == s.authorized && t.oracleCount == s.oracleCount
  {
  }

  /** Two successive price updates for one asset: the second wins. */
  lemma LastPriceWins(s: Storage, env1: Env, env2: Env, oracle: Address, asset: string,
                      p1: i128, c1: u32, src1: string, p2: i128, c2: u32, src2: string)
    requires UpdatePrice(s, env1, oracle, asset, p1, c1, src1).Success?
    requires oracle in env2.authorized
    ensures var t := UpdatePrice(s, env1, oracle, asset, p1, c1, src1).value;
      UpdatePrice(t, env2, oracle, asset, p2, c2, src2).Success? &&
      GetPrice(UpdatePrice(t, env2, oracle, asset, p2, c2, src2).value, asset)
        == Some(PriceFeed(asset, p2, c2, env2.timestamp, src2))
  {
  }

  // ---------------------------------------------------------------------------
  // An invariant kept by every entry point

  datatype Call =
    | CallInitialize(admin: Address)
    | CallAuthorizeOracle(admin: Address, oracle: Address)
    | CallRevokeOracle(admin: Address, oracle: Address)
    | CallUpdatePrice(oracle: Address, asset: string, priceUsd: i128, confidence: u32, source: string)
    | CallUpdatePerformance(oracle: Address, campaignId: u64, impressions: u64, clicks: u64, conversions: u64,
                            fraudScore: u32)

  function Invoke(s: Storage, env: Env, call: Call): Result<Storage, Panic> {
    match call
    case CallInitialize(admin) => Initialize(s, env, admin)
    case CallAuthorizeOracle(admin, oracle) => AuthorizeOracle(s, env, admin, oracle)
    case CallRevokeOracle(admin, oracle) => RevokeOracle(s, env, admin, oracle)
    case CallUpdatePrice(oracle, asset, p, c, src) => UpdatePrice(s, env, oracle, asset, p, c, src)
    case CallUpdatePerformance(oracle, id, i, c, v, f) => UpdatePerformance(s, env, oracle, id, i, c, v, f)
  }

  /**
   * Before initialisation nothing is stored. Afterwards the count is stored
   * and is at least the number of authorised oracles (it counts
   * authorisations, never revocations), and each feed is filed under its own
   * asset or campaign id.
   */
  ghost predicate Consistent(s: Storage) {
    && (s.admin.None? ==> s.oracleCount.None? && s.authorized == {} && s.priceFeeds == map[] && s.performance == map[])
    && (s.admin.Some? ==> s.oracleCount.Some? && |s.authorized| <= s.oracleCount.value)
    && (forall a :: a in s.priceFeeds ==> s.priceFeeds[a].asset == a)
    && (forall c :: c in s.performance ==> s.performance[c].campaignId == c)
  }

  lemma FreshIsConsistent()
    ensures Consistent(Fresh)
  {
  }

  /** Every invocation, whether it succeeds or panics, keeps the storage consistent. */
  lemma InvokeKeepsConsistent(s: Storage, env: Env, call: Call)
    requires Consistent(s)
    ensures Consistent(Commit(s, Invoke(s, env, call)))
  {
    if call.CallAuthorizeOracle? && Invoke(s, env, call).Success? {
      CardinalityOfInsert(s.authorized, call.oracle);
    }
  }

  lemma CardinalityOfInsert(xs: set<Address>, x: Address)
    ensures |xs + {x}| <= |xs| + 1
  {
    if x !in xs {
      assert |xs + {x}| == |xs| + 1;
    } else {
      assert xs + {x} == xs;
    }
  }
}

/** The oracle contract as an object whose storage its entry points update in place. */
module OracleIntegrationContract {
  import opened Wrappers
  import opened Soroban
  import opened OracleIntegration

  class Contract {
    var admin: Option<Address>
    var oracleCount: Option<nat>
    var authorized: set<Address>
    var priceFeeds: map<string, PriceFeed>
    var performance: map<u64, PerformanceData>
    var events: seq<Event>

    function State(): Storage
      reads this
    {
      Storage(admin, oracleCount, authorized, priceFeeds, performance, events)
    }

    constructor ()
      ensures State() == Fresh
    {
      admin, oracleCount, authorized := None, None, {};
      priceFeeds, performance, events := map[], map[], [];
    }

    method Initialize(env: Env, admin: Address) returns (outcome: Outcome<Panic>)
      modifies this
      ensures var r := OracleIntegration.Initialize(old(State()), env, admin);
        State() == Commit(old(State()), r) && (outcome == Pass <==> r.Success?)
      ensures outcome.Fail? ==> outcome.error == OracleIntegration.Initialize(old(State()), env, admin).error
    {
      if this.admin.Some? {
        return Fail(AlreadyInitialized);
      }
      if admin !in env.authorized {
        return Fail(AuthFailed(admin));
      }
      this.admin := Some(admin);
      oracleCount := Some(0);
      return Pass;
    }

    method RequireAdmin(env: Env, admin: Address) returns (outcome: Outcome<Panic>)
      ensures outcome == CheckAdmin(State(), env, admin)
    {
      if admin !in env.authorized {
        return Fail(AuthFailed(admin));
      }
      var storedAdmin := this.admin;
      if storedAdmin.None? {
        return Fail(UnwrapOnNone);
      }
      if admin != storedAdmin.value {
        return Fail(Unauthorized);
      }
      return Pass;
    }

    /** `oracle.require_auth()` and then `_require_oracle`. */
    method RequireOracle(env: Env, oracle: Address) returns (outcome: Outcome<Panic>)
      ensures outcome == CheckOracle(State(), env, oracle)
      ensures outcome == Pass <==> oracle in env.authorized && oracle in authorized
    {
      if oracle !in env.authorized {
        return Fail(AuthFailed(oracle));
      }
      var isAuth := IsOracleAuthorized(oracle);
      if !isAuth {
        return Fail(NotAuthorizedOracle);
      }
      return Pass;
    }

    method AuthorizeOracle(env: Env, admin: Address, oracle: Address) returns (outcome: Outcome<Panic>)
      modifies this
      ensures var r := OracleIntegration.AuthorizeOracle(old(State()), env, admin, oracle);
        State() == Commit(old(State()), r) && (outcome == Pass <==> r.Success?)
      ensures outcome.Fail? ==> outcome.error == OracleIntegration.AuthorizeOracle(old(State()), env, admin, oracle).error
    {
      outcome := RequireAdmin(env, admin);
      if outcome.Fail? {
        return;
      }
      authorized := authorized + {oracle};
      var count := oracleCount.GetOr(0);
      oracleCount := Some(count + 1);
    }

    method RevokeOracle(env: Env, admin: Address, oracle: Address) returns (outcome: Outcome<Panic>)
      modifies this
      ensures var r := OracleIntegration.RevokeOracle(old(State()), env, admin, oracle);
        State() == Commit(old(State()), r) && (outcome == Pass <==> r.Success?)
      ensures outcome.Fail? ==> outcome.error == OracleIntegration.RevokeOracle(old(State()), env, admin, oracle).error
    {
      outcome := RequireAdmin(env, admin);
      if outcome.Fail? {
        return;
      }
      authorized := authorized - {oracle};
    }

    method UpdatePrice(env: Env, oracle: Address, asset: string, priceUsd: i128, confidence: u32, source: string)
      returns (outcome: Outcome<Panic>)
      modifies this
      ensures var r := OracleIntegration.UpdatePrice(old(State()), env, oracle, asset, priceUsd, confidence, source);
        State() == Commit(old(State()), r) && (outcome == Pass <==> r.Success?)
      ensures outcome.Fail? ==>
        outcome.error == OracleIntegration.UpdatePrice(old(State()), env, oracle, asset, priceUsd, confidence, source).error
    {
      outcome := RequireOracle(env, oracle);
      if outcome.Fail? {
        return;
      }
      var feed := PriceFeed(asset, priceUsd, confidence, env.timestamp, source);
      priceFeeds := priceFeeds[asset := feed];
      events := events + [PriceUpdated(asset, priceUsd)];
    }

    method UpdatePerformance(env: Env, oracle: Address, campaignId: u64, impressions: u64, clicks: u64,
                             conversions: u64, fraudScore: u32) returns (outcome: Outcome<Panic>)
      modifies this
      ensures var r := OracleIntegration.UpdatePerformance(old(State()), env, oracle, campaignId, impressions, clicks,
                                                           conversions, fraudScore);
        State() == Commit(old(State()), r) && (outcome == Pass <==> r.Success?)
      ensures outcome.Fail? ==>
        outcome.error == OracleIntegration.UpdatePerformance(old(State()), env, oracle, campaignId, impressions, clicks,
                                                             conversions, fraudScore).error
    {
      outcome := RequireOracle(env, oracle);
      if outcome.Fail? {
        return;
      }
      var data := PerformanceData(campaignId, impressions, clicks, conversions, fraudScore, env.timestamp);
      performance := performance[campaignId := data];
      events := events + [PerformanceUpdated(campaignId)];
    }

    /** get_price: exactly the stored feed for the asset, if any. */
    method GetPrice(asset: string) returns (feed: Option<PriceFeed>)
      ensures feed.Some? <==> asset in priceFeeds
      ensures feed.Some? ==> feed.value == priceFeeds[asset]
    {
      if asset in priceFeeds {
        return Some(priceFeeds[asset]);
      }
      return None;
    }

    /** get_performance: exactly the stored record for the campaign, if any. */
    method GetPerformance(campaignId: u64) returns (data: Option<PerformanceData>)
      ensures data.Some? <==> campaignId in performance
      ensures data.Some? ==> data.value == performance[campaignId]
    {
      if campaignId in performance {
        return Some(performance[campaignId]);
      }
      return None;
    }

    /** is_oracle_authorized: false unless the address is on the allow-list. */
    method IsOracleAuthorized(oracle: Address) returns (isAuth: bool)
      ensures isAuth <==> oracle in authorized
    {
      isAuth := oracle in authorized;
    }
  }
}
