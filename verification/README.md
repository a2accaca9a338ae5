# PulsarTrack core, modelled in Dafny

PulsarTrack is an ad-tracking platform on Stellar. This project models five
parts of it and proves properties about them:

- **Request validation middleware** (`validate.dfy`, module `Validate`). A schema
  declares rules per field for `params`, `query` and `body`. `ValidateField`
  checks one value and reports at most one violation. The checks run in a fixed
  order: presence, public-key shape, number (NaN, integer, min, max), then string
  length. The `Validate` middleware is a method with nested loops. It is proved to
  answer 400 with exactly the errors of every field, in schema order, and to call
  `next()` exactly when there are none.
- **Stellar error classification** (`error_handler.dfy`, module `ErrorHandler`).
  `ParseStellarError` lower-cases an error's message. It tests six keyword
  signatures in order; the first that matches decides the code. Four codes carry
  a fixed message; the others keep the original message. Anything that is not an
  `Error` becomes `UNKNOWN`. The guard chain is proved equal to a first-match
  search over a signature table. `GetErrorMessage` maps each code to the text
  shown to the user.
- **Governance core contract** (`governance_core.dfy`). Module `GovernanceCore`
  states each entry point as a function from contract storage to new storage or
  a panic. A panic rolls back every write. Class
  `GovernanceCoreContract.Contract` keeps the same storage in fields and updates
  it in place; its methods are proved to follow those functions. The contract
  has one-time initialisation with default parameters, admin-gated role grants
  and revocations with a per-role counter, expiry-aware `has_role`, and
  replacement of the parameters. The role counter counts grants minus
  revocations, never below zero, not holders of the role; `RoleCountIsNotHolderCount` exhibits this.
- **Oracle integration contract** (`oracle_integration.dfy`), built the same way:
  - an admin-gated allow-list of oracles, whose authorisations `OracleCount` counts;
  - last-write-wins price feeds keyed by asset;
  - last-write-wins performance records keyed by campaign id;
  - only an authorised oracle may write a feed.
- **Toast list reducer** (`toast_reducer.dfy`, module `ToastReducer`). ADD
  appends, REMOVE filters by id, and any other action is a no-op.

`wrappers.dfy` holds Option/Result/Outcome. `soroban.dfy` holds the host
vocabulary the contracts share:
- integer widths;
- addresses;
- `Env`: the ledger time and the addresses that authorised the call;
- the panics.

The error-code enum defines nine codes (`WALLET_NOT_FOUND` … `UNKNOWN`), and the
model has exactly those nine.

## Model

| member | source | states |
|---|---|---|
| Validate.ValidateField | backend/src/middleware/validate.ts:25-66 | an error is reported for the checked field and exactly when the value violates the rule |
| Validate.EmptyValue | backend/src/middleware/validate.ts:26-31 | an undefined, null or empty value is "`<field>` is required" if the rule is required and accepted otherwise, whatever its type |
| Validate.StellarAddressCheck | backend/src/middleware/validate.ts:33-37 | a non-empty stellar_address value is rejected with the public-key message exactly when the SDK check fails on its string form |
| Validate.NaNSupersedesRange | backend/src/middleware/validate.ts:39-43 | a number field whose value converts to NaN is reported as "must be a number", before any integer or range check |
| Validate.NumericCheckOrder | backend/src/middleware/validate.ts:44-52 | for a numeric value the integer check precedes min, which precedes max, each with its own message |
| Validate.LengthCheckOrder | backend/src/middleware/validate.ts:55-63 | for a string field minLength is checked before maxLength on the string form's length |
| Validate.Validate | backend/src/middleware/validate.ts:68-87 | the middleware calls next() iff no field of any surface has an error, and otherwise answers 400 with "Validation failed" and all errors in schema order |
| Validate.FieldErrorsAreFieldResults | backend/src/middleware/validate.ts:74-77 | an error is among a surface's errors iff some declared field of that surface produced it |
| Validate.CollectedErrorsAreFieldResults | backend/src/middleware/validate.ts:72-78 | an error is in the response iff some field of some surface produced it |
| Validate.PassesIffEveryFieldPasses | backend/src/middleware/validate.ts:72-85 | the request passes iff every declared field of every surface validates |
| Validate.CollectErrorsAppend | backend/src/middleware/validate.ts:72-78 | the errors of a concatenated schema are the errors of its parts, in order |
| Validate.FieldErrorsBound | backend/src/middleware/validate.ts:74-77 | a surface yields at most one error per declared field |
| Validate.CollectErrorsBound | backend/src/middleware/validate.ts:72-78 | the response lists at most as many errors as the schema declares fields |
| Validate.MissingSurfaceReportsRequired | backend/src/middleware/validate.ts:73-76 | a surface absent from the request is read as empty, so exactly its required fields are reported missing |
| Validate.AmountBelowMinScenario | backend/src/middleware/validate.ts:47-49 | a body amount 0 under min 1 yields 400 with "amount must be at least 1" |
| ErrorHandler.ToLower | frontend/src/lib/error-handler.ts:33 | lower-casing, restricted to ASCII letters, keeps the length and lowers each character |
| ErrorHandler.ParseStellarError | frontend/src/lib/error-handler.ts:31-69 | the result keeps the original error; never TX_FAILED or NOT_CONNECTED; non-Errors are UNKNOWN with the generic text; each code carries its fixed text or the original message |
| ErrorHandler.FirstMatch | frontend/src/lib/error-handler.ts:35-65 | a found signature index is in the table and its keywords occur in the text |
| ErrorHandler.FirstMatchIsFirst | frontend/src/lib/error-handler.ts:35-65 | signature k is chosen iff its keywords occur and no earlier signature's do |
| ErrorHandler.FirstMatchNone | frontend/src/lib/error-handler.ts:66-68 | no signature is chosen iff none matches |
| ErrorHandler.MatchesAnyPair | frontend/src/lib/error-handler.ts:35 | a two-keyword guard holds iff either keyword occurs |
| ErrorHandler.MatchesAnySingle | frontend/src/lib/error-handler.ts:59 | a one-keyword guard holds iff the keyword occurs |
| ErrorHandler.ParseFollowsSignatureTable | frontend/src/lib/error-handler.ts:31-69 | the guard chain equals first-match classification over the ordered signature table |
| ErrorHandler.NetworkBeatsGenericError | frontend/src/lib/error-handler.ts:43-49 | a message with "network" and "error" but none of the earlier keywords is NETWORK_MISMATCH, not CONTRACT_ERROR |
| ErrorHandler.LowerOfUpper | frontend/src/lib/error-handler.ts:33 | lower-casing an ASCII-upper-cased message equals lower-casing it directly |
| ErrorHandler.ClassificationIgnoresCase | frontend/src/lib/error-handler.ts:33 | ASCII upper-casing a message does not change its code |
| ErrorHandler.NetworkErrorText | frontend/src/lib/error-handler.ts:35-43 | "network error occurred" fails the wallet and rejection guards and passes the network guard |
| ErrorHandler.NetworkErrorScenario | frontend/src/lib/error-handler.ts:43-49 | an Error "network error occurred" is NETWORK_MISMATCH |
| ErrorHandler.RejectedRequestText | frontend/src/lib/error-handler.ts:35-39 | "user rejected the request" fails the wallet guard and contains "rejected" |
| ErrorHandler.RejectedScenario | frontend/src/lib/error-handler.ts:39-41 | an Error "User rejected the request" becomes USER_REJECTED with "User rejected the transaction" and keeps the error |
| ErrorHandler.MissingCharBlocks | frontend/src/lib/error-handler.ts:35 | a keyword with a character the message lacks does not occur in it |
| ErrorHandler.ContainsAt | frontend/src/lib/error-handler.ts:35 | a keyword found at some position occurs in the message |
| ErrorHandler.ContainsInfix | frontend/src/lib/error-handler.ts:39 | a keyword placed between any prefix and suffix occurs in the resulting message |
| ErrorHandler.GetErrorMessage | frontend/src/lib/error-handler.ts:71-92 | the displayed text is never empty |
| ErrorHandler.FixedDisplayIgnoresMessage | frontend/src/lib/error-handler.ts:72-88 | for codes other than SIMULATION_FAILED, CONTRACT_ERROR and UNKNOWN the display depends on the code alone |
| ErrorHandler.DisplayEndsWithMessage | frontend/src/lib/error-handler.ts:81-84 | simulation and contract errors display their prefix followed by the error's own message |
| ErrorHandler.UnknownDisplay | frontend/src/lib/error-handler.ts:89-90 | UNKNOWN shows its message, or the generic text when the message is empty |
| ErrorHandler.DisplayOfNonError | frontend/src/lib/error-handler.ts:68 | a thrown non-Error is displayed as "An unexpected error occurred." |
| GovernanceCore.InitializeOnlyOnce | contracts/governance-core/src/lib.rs:53-56 | after a successful initialize, any further initialize panics "already initialized" |
| GovernanceCore.InitializeSetsDefaults | contracts/governance-core/src/lib.rs:57-69 | initialize stores the admin, the default parameters (1000000, 10000, 10, 51, 1000, 20) and a zero proposal count |
| GovernanceCore.GetParamsBeforeInit | contracts/governance-core/src/lib.rs:153-158 | get_params on a fresh contract panics "not initialized" |
| GovernanceCore.NonAdminIsUnauthorized | contracts/governance-core/src/lib.rs:73-77 | an authenticated caller other than the admin gets "unauthorized" from grant_role, revoke_role and update_params |
| GovernanceCore.GrantRoleEffect | contracts/governance-core/src/lib.rs:72-103 | grant_role stores the grant with granter and ledger time, adds one to that role's count even on a re-grant, and changes no other grant or count |
| GovernanceCore.RevokeRoleEffect | contracts/governance-core/src/lib.rs:105-126 | revoke_role removes the grant, so has_role is false; the count drops by one only if positive; nothing else changes |
| GovernanceCore.HasRoleMeaning | contracts/governance-core/src/lib.rs:128-142 | has_role holds iff a grant exists that never expires or expires strictly after the ledger time |
| GovernanceCore.GrantThenHasRole | contracts/governance-core/src/lib.rs:79-88 | right after a grant, has_role holds iff the grant has no expiry or one later than now |
| GovernanceCore.GrantThenRevokeRestoresCount | contracts/governance-core/src/lib.rs:90-125 | a grant followed by a revoke of the same role leaves its count unchanged |
| GovernanceCore.UpdateParamsEffect | contracts/governance-core/src/lib.rs:144-151 | update_params replaces the parameters wholesale, get_params returns them, nothing else changes |
| GovernanceCore.RoleCountIsNotHolderCount | contracts/governance-core/src/lib.rs:116-125 | revoking from an account without the role still lowers the count, which can reach zero while someone holds the role |
| GovernanceCore.FreshIsConsistent | contracts/governance-core/src/lib.rs:39-46 | an undeployed contract satisfies the storage invariant |
| GovernanceCore.InvokeKeepsConsistent | contracts/governance-core/src/lib.rs:53-151 | every entry point, whether it succeeds or panics, keeps the invariant: nothing stored before initialisation, parameters present after, every grant made by the admin under its own role |
| GovernanceCore.Run | contracts/governance-core/src/lib.rs:54-58 | once set, the admin never changes over any sequence of calls |
| GovernanceCore.GetParamsAfterInit | contracts/governance-core/src/lib.rs:153-158 | after initialisation, get_params never panics over any sequence of calls |
| GovernanceCoreContract.Contract.constructor | contracts/governance-core/src/lib.rs:48-49 | a deployed contract stores nothing |
| GovernanceCoreContract.Contract.Initialize | contracts/governance-core/src/lib.rs:53-70 | the new storage and the panic are those of the initialize transition |
| GovernanceCoreContract.Contract.RequireAdmin | contracts/governance-core/src/lib.rs:73-77 | authorisation, then the stored admin (panic if missing), then equality, in that order |
| GovernanceCoreContract.Contract.GrantRole | contracts/governance-core/src/lib.rs:72-103 | the new storage and the panic are those of the grant_role transition |
| GovernanceCoreContract.Contract.RevokeRole | contracts/governance-core/src/lib.rs:105-126 | the new storage and the panic are those of the revoke_role transition |
| GovernanceCoreContract.Contract.HasRole | contracts/governance-core/src/lib.rs:128-142 | true iff a grant is stored that never expires or expires after the ledger time |
| GovernanceCoreContract.Contract.UpdateParams | contracts/governance-core/src/lib.rs:144-151 | the new storage and the panic are those of the update_params transition |
| GovernanceCoreContract.Contract.GetParams | contracts/governance-core/src/lib.rs:153-158 | the stored parameters, or a "not initialized" panic iff none are stored |
| GovernanceCoreContract.Contract.GetRoleGrant | contracts/governance-core/src/lib.rs:160-164 | exactly the stored grant for the account and role, if any |
| OracleIntegration.InitializeOnlyOnce | contracts/oracle-integration/src/lib.rs:47-50 | after a successful initialize, any further initialize panics "already initialized" |
| OracleIntegration.InitializeStartsCount | contracts/oracle-integration/src/lib.rs:51-53 | initialize stores the admin and an oracle count of zero, with no oracle authorised |
| OracleIntegration.NonAdminIsUnauthorized | contracts/oracle-integration/src/lib.rs:57-61 | an authenticated caller other than the admin gets "unauthorized" from authorize_oracle and revoke_oracle |
| OracleIntegration.AllowListEffects | contracts/oracle-integration/src/lib.rs:56-75 | authorize_oracle authorises the oracle and adds one to the count, even for an oracle already authorised; revoke_oracle deauthorises it and leaves the count; other oracles and the feeds are untouched |
| OracleIntegration.AuthorizationLifecycle | contracts/oracle-integration/src/lib.rs:141-143 | is_oracle_authorized is false at first, true after authorize, false after revoke, and the count stays 1 |
| OracleIntegration.UnauthorizedOracleRejected | contracts/oracle-integration/src/lib.rs:145-153 | an authenticated writer not on the allow-list gets "not authorized oracle" from both feed updates, and storage is unchanged |
| OracleIntegration.FeedWriteAllowedIff | contracts/oracle-integration/src/lib.rs:85-86 | a price update succeeds iff the oracle authenticated and is authorised |
| OracleIntegration.UpdatePriceThenGet | contracts/oracle-integration/src/lib.rs:88-96 | get_price returns the feed just written with the ledger time; other assets, performance records and the allow-list are unchanged |
| OracleIntegration.UpdatePerformanceThenGet | contracts/oracle-integration/src/lib.rs:116-125 | get_performance returns the record just written; other campaigns, prices and the allow-list are unchanged |
| OracleIntegration.LastPriceWins | contracts/oracle-integration/src/lib.rs:96 | of two price updates for one asset, the later one is what get_price returns |
| OracleIntegration.FreshIsConsistent | contracts/oracle-integration/src/lib.rs:31-40 | an undeployed contract satisfies the storage invariant |
| OracleIntegration.InvokeKeepsConsistent | contracts/oracle-integration/src/lib.rs:47-131 | every entry point keeps the invariant: nothing stored before initialisation, the count at least the number of authorised oracles, each feed filed under its own key |
| OracleIntegration.CardinalityOfInsert | contracts/oracle-integration/src/lib.rs:62-65 | authorising one oracle grows the allow-list by at most one |
| OracleIntegrationContract.Contract.constructor | contracts/oracle-integration/src/lib.rs:42-43 | a deployed contract stores nothing |
| OracleIntegrationContract.Contract.Initialize | contracts/oracle-integration/src/lib.rs:47-54 | the new storage and the panic are those of the initialize transition |
| OracleIntegrationContract.Contract.RequireAdmin | contracts/oracle-integration/src/lib.rs:57-61 | authorisation, then the stored admin (panic if missing), then equality |
| OracleIntegrationContract.Contract.RequireOracle | contracts/oracle-integration/src/lib.rs:145-154 | passes iff the oracle authenticated and is on the allow-list, panicking "not authorized oracle" otherwise |
| OracleIntegrationContract.Contract.AuthorizeOracle | contracts/oracle-integration/src/lib.rs:56-66 | the new storage and the panic are those of the authorize_oracle transition |
| OracleIntegrationContract.Contract.RevokeOracle | contracts/oracle-integration/src/lib.rs:68-75 | the new storage and the panic are those of the revoke_oracle transition |
| OracleIntegrationContract.Contract.UpdatePrice | contracts/oracle-integration/src/lib.rs:77-102 | the new storage and the panic are those of the update_price transition |
| OracleIntegrationContract.Contract.UpdatePerformance | contracts/oracle-integration/src/lib.rs:104-131 | the new storage and the panic are those of the update_performance transition |
| OracleIntegrationContract.Contract.GetPrice | contracts/oracle-integration/src/lib.rs:133-135 | exactly the stored feed for the asset, if any |
| OracleIntegrationContract.Contract.GetPerformance | contracts/oracle-integration/src/lib.rs:137-139 | exactly the stored record for the campaign, if any |
| OracleIntegrationContract.Contract.IsOracleAuthorized | contracts/oracle-integration/src/lib.rs:141-143 | true iff the oracle is on the allow-list, false by default |
| ToastReducer.WithoutId | frontend/src/contexts/ToastContext.tsx:39 | the filtered list is no longer than the original and holds exactly the toasts whose id differs |
| ToastReducer.Reduce | frontend/src/contexts/ToastContext.tsx:34-43 | ADD keeps the old list as a prefix and puts the toast last; REMOVE filters by id; any other action returns the state |
| ToastReducer.WithoutIdAppend | frontend/src/contexts/ToastContext.tsx:39 | REMOVE distributes over concatenation, so relative order is kept |
| ToastReducer.RemoveAbsentIsIdentity | frontend/src/contexts/ToastContext.tsx:39 | REMOVE of an id no toast carries leaves the list unchanged |
| ToastReducer.RemoveIdempotent | frontend/src/contexts/ToastContext.tsx:38-39 | REMOVE twice equals REMOVE once |
| ToastReducer.RemoveKeepsOthersInOrder | frontend/src/contexts/ToastContext.tsx:39 | a kept toast sits right after the kept toasts that preceded it |
| ToastReducer.AddThenRemoveFresh | frontend/src/contexts/ToastContext.tsx:36-39 | adding a toast with a fresh id and removing that id restores the list |

## Left out

- Validate.Lookup: a field missing from the request reads as `undefined`. In JavaScript, `data[field]` also finds inherited `Object.prototype` members, so a missing required field named `constructor` or `toString` is not reported there but is in the model.
- JavaScript coercions are parameters (the `Host` datatype): `Number(value)`, `String(value)`, the printing of a number inside a message, and the Stellar SDK's `StrKey.isValidEd25519PublicKey`. Their own behaviour is not modelled.
- `str.length` counts UTF-16 code units in JavaScript. The model counts the characters of the `String(value)` result.
- `Object.entries` lists integer-like keys first in JavaScript. The model takes a schema's surfaces and fields in declaration order as given.
- ErrorHandler.ToLower: lowers ASCII letters only and keeps every other character and the length. JavaScript's `toLowerCase` also maps non-ASCII letters, e.g. the Kelvin sign U+212A to "k", and can lengthen a string ("İ" becomes two code units). So `ErrorHandler.ParseStellarError` can classify such messages differently: an Error "NETWOR\u212A ERROR" is NETWORK_MISMATCH in JavaScript but CONTRACT_ERROR in the model.
- `createPulsarError` has no contract of its own: it only builds the record.
- The concrete scenario for "insufficient balance for fee" is not proved on its literal. The general classification lemmas cover it.
- `RoleCount` and `OracleCount` are unbounded naturals. The u32 overflow of `count + 1` at 2^32 depends on the build's overflow checks, which are not part of this model.
- `require_auth` is modelled as membership of the address in the set of signers of the invocation. The host's signature and nonce checks are not modelled.
- Events are modelled as an append-only log of their payloads. Topics, subscribers and the host's event buffer are not.
- The oracle `DataKey` variants `PriceOracle` and `PerformanceOracle` are never read or written by the contract, so they have no field.
- Storage TTLs and archival (instance versus persistent lifetimes) are not modelled; a stored key is assumed to stay readable.
- `ToastProvider` is not modelled: its id generation from the clock and randomness, its five-second auto-dismiss timer and its rendering. Only `reducer` is.
- Express's `Request`/`Response` objects are reduced to the three surfaces and a status/body verdict. The other Express routes and middleware are not part of this model.
