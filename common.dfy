// Shared vocabulary of the launchpad contract: identities, token identifiers,
// the error tags raised by `require!` and the shapes of endpoint results.

module Common {

  /** An account or contract address, kept opaque. */
  type Address = string

  /** An ESDT token identifier, kept opaque. */
  type TokenId = string

  datatype Option<+T> = None | Some(value: T)

  /** The reason an endpoint call aborts. Each tag names the message constant the
      source passes to `require!` (or, for the last three, the failure it stands for). */
  datatype Error =
    | NotActive             // ERROR_NOT_ACTIVE: the contract is paused
    | TemplateDaoNotSet     // ERROR_TEMPLATE_DAO_NOT_SET
    | ZeroPrice             // ERROR_ZERO_PRICE
    | WrongMinMaxAmounts    // ERROR_WRONG_MIN_MAX_AMOUNTS
    | WrongStartTime        // ERROR_WRONG_START_TIME
    | WrongEndTime          // ERROR_WRONG_END_TIME
    | TokenAlreadyLaunched  // ERROR_TOKEN_ALREADY_LAUNCHED
    | ZeroPayment           // ERROR_ZERO_PAYMENT
    | LaunchpadNotFound     // ERROR_LAUNCHPAD_NOT_FOUND
    | LaunchpadInactive     // ERROR_LAUNCHPAD_INACTIVE
    | WrongToken            // ERROR_WRONG_TOKEN
    | NotWhitelisted        // ERROR_NOT_WHITELISTED
    | LowAmount             // ERROR_LOW_AMOUNT
    | HighAmount            // ERROR_HIGH_AMOUNT
    | InsufficientFunds     // ERROR_INSUFFICIENT_FUNDS
    | LaunchpadNotEnded     // ERROR_LAUNCHPAD_NOT_ENDED
    | AlreadyRedeemed       // ERROR_ALREADY_REDEEMED
    | OnlyOwner             // the `#[only_owner]` guard: caller is not the contract owner
    | NotApprovedByDao      // the `only_dao` guard of the governance module
    | MissingRecord         // decoding an empty `launchpads(id)` storage entry

  /** The result of an endpoint that returns a value. */
  datatype Result<+T> = Ok(value: T) | Err(error: Error)

  /** The result of an endpoint that returns nothing. */
  datatype Outcome = Pass | Fail(error: Error)
}
