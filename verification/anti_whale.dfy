/** The anti-whale guard of PonyToken: a cap on a single transfer, proportional to the
    total supply, that excluded senders and recipients are not held to. */
module AntiWhale {

  /** Basis-point denominator of the max transfer amount rate. */
  const RATE_DENOMINATOR: nat := 10000
  /** Rate at deployment: 0.5% of the total supply. */
  const DEFAULT_MAX_TRANSFER_AMOUNT_RATE: nat := 50

  /** `maxTransferAmount`: `supply * rate / 10000`, truncated, recomputed from the current supply. */
  function MaxTransfer(supply: nat, rate: nat): (cap: nat)
    ensures cap * RATE_DENOMINATOR <= supply * rate < (cap + 1) * RATE_DENOMINATOR
  {
    supply * rate / RATE_DENOMINATOR
  }

  /** Whether the guard lets a transfer of `amount` through. Between two non-excluded parties
      under a positive cap, exactly the transfers up to the cap pass; an excluded party on
      either side lets any amount pass, and so does a zero cap. */
  predicate Permits(cap: nat, senderExcluded: bool, recipientExcluded: bool, amount: nat)
    ensures cap > 0 && !senderExcluded && !recipientExcluded ==>
              (Permits(cap, senderExcluded, recipientExcluded, amount) <==> amount <= cap)
    ensures senderExcluded || recipientExcluded ==> Permits(cap, senderExcluded, recipientExcluded, amount)
    ensures cap == 0 ==> Permits(cap, senderExcluded, recipientExcluded, amount)
  {
    cap == 0 || senderExcluded || recipientExcluded || amount <= cap
  }

  /** Minting never lowers the cap. */
  lemma MaxTransferMonotone(s1: nat, s2: nat, rate: nat)
    requires s1 <= s2
    ensures MaxTransfer(s1, rate) <= MaxTransfer(s2, rate)
  {
    var d := s2 - s1;
    assert s2 * rate == s1 * rate + d * rate;
  }

  /** Doubling the supply doubles the cap, up to one unit of truncation, and doubling the rate
      has the same effect as doubling the supply. */
  lemma MaxTransferDoubling(supply: nat, rate: nat)
    ensures 2 * MaxTransfer(supply, rate) <= MaxTransfer(2 * supply, rate) <= 2 * MaxTransfer(supply, rate) + 1
    ensures MaxTransfer(supply, 2 * rate) == MaxTransfer(2 * supply, rate)
  {
    assert supply * (2 * rate) == (2 * supply) * rate;
  }

  /** The caps the token reports: none before minting, 0.5% after minting, 1% after a rate update. */
  lemma MaxTransferExamples()
    ensures MaxTransfer(0, DEFAULT_MAX_TRANSFER_AMOUNT_RATE) == 0
    ensures MaxTransfer(1000000, DEFAULT_MAX_TRANSFER_AMOUNT_RATE) == 5000
    ensures MaxTransfer(1001000, DEFAULT_MAX_TRANSFER_AMOUNT_RATE) == 5005
    ensures MaxTransfer(1001000, 100) == 10010
    ensures MaxTransfer(50000, DEFAULT_MAX_TRANSFER_AMOUNT_RATE) == 250
    ensures MaxTransfer(10000000, DEFAULT_MAX_TRANSFER_AMOUNT_RATE) == 50000
  {
  }
}
