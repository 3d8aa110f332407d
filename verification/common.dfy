/** Addresses, well-known constants and the revert reasons shared by the three contracts. */
module Common {

  /** An account address; the zero address is the null party. */
  type Address = nat

  /** The null address (0x0000000000000000000000000000000000000000). */
  const ZERO: Address := 0

  /** The burn sink (0x000000000000000000000000000000000000dEaD). */
  const BURN: Address := 0xdEaD

  /** Why a call reverts. A reverted call changes no state. */
  datatype Error =
    | NotOwner            // "Ownable: caller is not the owner"
    | NotOperator         // "operator: caller is not the operator"
    | ZeroAddress         // a zero address where a real party is required
    | ExceedsBalance      // the sender's balance does not cover the amount (the model's own reason)
    | ExceedsAllowance    // the spender's allowance does not cover the amount (the model's own reason)
    | ExceedsMaxTransfer  // "antiWhale: Transfer amount exceeds the maxTransferAmount"
    | RateTooHigh         // a rate setter was given more than its maximum

  /** The outcome of a state-changing call: it either commits or reverts with a reason. */
  datatype Outcome = Ok | Fail(error: Error)
}
