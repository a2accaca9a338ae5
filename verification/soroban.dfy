/**
 * What the two Soroban contracts take from their host: integer widths,
 * addresses, the ledger timestamp and the set of addresses that authorised the
 * current invocation, and the panics that abort an invocation.
 */
module Soroban {

  newtype u32 = x: int | 0 <= x < 0x1_0000_0000
  newtype u64 = x: int | 0 <= x < 0x1_0000_0000_0000_0000
  newtype i128 = x: int | -0x8000_0000_0000_0000_0000_0000_0000_0000 <= x < 0x8000_0000_0000_0000_0000_0000_0000_0000

  /** A Stellar account or contract address, compared by value. */
  type Address = string

  /**
   * The part of `Env` an entry point reads: `env.ledger().timestamp()` and the
   * addresses whose `require_auth()` succeeds in this invocation.
   */
  datatype Env = Env(timestamp: u64, authorized: set<Address>)

  /**
   * Why an invocation panicked. A panic aborts the invocation and the host
   * discards every storage write it made.
   */
  datatype Panic =
    | AlreadyInitialized     // panic!("already initialized")
    | Unauthorized           // panic!("unauthorized")
    | NotInitialized         // .expect("not initialized")
    | NotAuthorizedOracle    // panic!("not authorized oracle")
    | AuthFailed(who: Address) // require_auth() without the address's signature
    | UnwrapOnNone           // .unwrap() of a storage read that found nothing
}
