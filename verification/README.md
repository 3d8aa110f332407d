# PonySwap contracts: token ledger, referral registry and locker

A Dafny model of three PonySwap contracts, as their test suites describe them.

- **PonyToken** is a BEP20 token with fee-on-transfer economics.
  - Every transfer pays a tax of `amount * transferTaxRate / 10000`, truncated.
  - `burnRate` percent of the tax goes to the burn sink `0x…dEaD`. The contract's own address keeps the rest of the tax as liquidity.
  - The recipient receives the remainder of the amount.
  - An anti-whale cap of `totalSupply * maxTransferAmountRate / 10000` limits every transfer between two non-excluded accounts.
  - The owner mints. An operator role, which starts with the owner, tunes the rates, the exclusion set and the liquify settings.
- **PonyReferral** is a registry that only its operators may write, and the owner manages the operators.
  - The first valid referrer recorded for a user is kept for good.
  - Each recorded referral raises its referrer's count by one.
  - Commissions accumulate per referrer. The zero address never accrues any.
- **PonyLocker** is a vault. Its owner can release the vault's whole balance of a token to any non-zero address. Released to any address other than the vault itself, this empties the vault.

## Structure

- `common.dfy` (`Common`): addresses, the zero address and the burn sink, and revert reasons. A call returns `Outcome`: `Ok`, or `Fail(reason)` with no state changed.
- `ledger.dfy` (`Ledger`): balance tables as `map<Address, nat>`, where an absent address holds 0.
  - `Total` is the sum of all balances.
  - `Credit`, `Debit` and `Move` are the balance updates, each with its effect on `Total`.
- `fees.dfy` (`Fees`): the tax and burn arithmetic. `SplitOf` divides a gross amount into net, burn and pool.
- `anti_whale.dfy` (`AntiWhale`): the supply-relative cap and the guard predicate.
- `pony_token.dfy` (`PonyToken`): class `Token`, whose fields are updated in place by its methods.
  - `Valid()` states that the balances add up to `totalSupply` and that both rates are within their bounds.
  - Every transfer goes through `Settle`. Its contract is the relation `Settled`: the sender pays `amount`, the recipient gets the net, the burn sink the burnt part and the contract the pool part.
- `token_scenarios.dfy` (`TokenScenarios`): the token's documented call sequences.
  - Lemmas derive the exact balances the token reports from `Settled` and the split.
  - Scenario methods replay the calls on a `Token` and check outcomes, rates, caps and allowances. They apply the balance lemmas to each transfer whose balances the tests report.
- `pony_referral.dfy` (`PonyReferral`): class `Referral` and the pure table updates `Attribute` and `Accrue`.
  - `Valid()` states that each referrer's count equals the number of users attributed to it.
- `referral_scenarios.dfy` (`ReferralScenarios`): the registry's documented call sequences.
- `pony_locker.dfy` (`PonyLocker`): a plain BEP20 token class `Bep20`, and class `Locker` whose `Unlock` moves the locker's whole balance to `to`.

The model follows the behaviour the tests pin down. Where the tests leave a point open, the model makes a choice, named here with the test line it rests on:

- The operator is not excluded from the anti-whale cap until `setExcludedFromAntiWhale` is called, as test/PantherToken.test.js:181-183 asserts. The exclusions at deployment are the owner, the contract and the burn sink, as test/PantherToken.test.js:201-207 lets transfers of 251 through for each of them.
- A cap of 0 lets every transfer through. The tests show the cap at 0 before any mint (test/PantherToken.test.js:162) but no transfer at that point.
- Every transfer is taxed alike. The tests check balances only after transfers between non-excluded accounts (test/PantherToken.test.js:64-157), so no tax exemption is modelled (see "Left out").
- A transfer's checks run in a fixed order: the anti-whale guard, then the zero addresses, then the balance. The tests show only the anti-whale reason (test/PantherToken.test.js:193, 195).

## Model

| member | source | states |
|---|---|---|
| Ledger.UpdateTotal | test/PantherToken.test.js:64-75 | Overwriting one balance changes the sum of all balances by exactly the difference. This is the step behind every conservation fact. |
| Ledger.Credit | test/PantherToken.test.js:59-60 | Crediting `n` raises that balance and the total by `n` and leaves every other balance as it was. |
| Ledger.Debit | test/PantherToken.test.js:64-65 | Debiting `n` from a balance that covers it lowers that balance and the total by `n` and leaves every other balance as it was. |
| Ledger.Move | test/PantherToken.test.js:64-75 | A move takes `n` from one address and gives `n` to another. No other balance changes and the total is conserved. |
| Fees.Tax | test/PantherToken.test.js:64-68 | The tax is at most the amount and is the truncated quotient: `tax*10000 <= amount*rate < (tax+1)*10000`. |
| Fees.BurnPart | test/PantherToken.test.js:64-68 | The burnt part is at most the tax and is the truncated quotient: `burn*100 <= tax*burnRate < (burn+1)*100`. |
| Fees.SplitOf | test/PantherToken.test.js:55-76 | Net, burn and pool add up to the gross amount, so a transfer conserves tokens. |
| Fees.SplitOfRounding | test/PantherToken.test.js:64-75 | The taxed part is `amount*taxRate/10000` rounded down, and the burnt part is `taxed*burnRate/100` rounded down. |
| Fees.TaxVanishesIff | test/PantherToken.test.js:87-91 | The tax is zero exactly when `amount*taxRate < 10000`: 19 tokens at 5% move untaxed. |
| Fees.TaxMonotone | test/PantherToken.test.js:64-75 | A larger transfer is never taxed less. |
| Fees.ZeroTaxRateMovesAll | test/PantherToken.test.js:101-113 | At tax rate 0 the whole amount reaches the recipient, with no burn and no pool. |
| Fees.ZeroBurnRatePoolsAll | test/PantherToken.test.js:123-135 | At burn rate 0 nothing is burnt and the whole tax goes to the pool. |
| Fees.FullBurnRateBurnsAll | test/PantherToken.test.js:145-157 | At burn rate 100 the whole tax is burnt and the pool gets nothing. |
| Fees.LargeTransferPaysTax | test/PantherToken.test.js:64-68 | Once `amount*taxRate` reaches 10000, burn plus pool is positive. |
| Fees.SplitExampleDefaultRates | test/PantherToken.test.js:64-75 | At 5%/20%, 12345 splits into 11728/123/494 and 22345 into 21228/223/894. |
| Fees.SplitExampleSmallAmount | test/PantherToken.test.js:87-91 | At 5%/20%, 19 splits into 19/0/0. |
| Fees.SplitExampleBurnExtremes | test/PantherToken.test.js:131-157 | 1234 at 5% splits into 1173/0/61 with no burn and 1173/61/0 with full burn. |
| AntiWhale.MaxTransfer | test/PantherToken.test.js:160-175 | The cap is `supply*rate/10000` rounded down. |
| AntiWhale.Permits | test/PantherToken.test.js:192-209 | Under a positive cap, between non-excluded parties, exactly the amounts up to the cap pass. An excluded party on either side lets any amount pass, and so does a cap of 0. |
| AntiWhale.MaxTransferMonotone | test/PantherToken.test.js:164-168 | Minting never lowers the cap. |
| AntiWhale.MaxTransferDoubling | test/PantherToken.test.js:168-174 | Doubling the supply doubles the cap, up to one unit of truncation. Doubling the rate gives exactly the cap of the doubled supply, as 5005 to 10010 shows. |
| AntiWhale.MaxTransferExamples | test/PantherToken.test.js:160-175 | The cap is 0 at supply 0. It is 5000 and 5005 after the mints, 10010 at rate 100, and 250 at supply 50000. |
| PonyToken.SettledDistinct | test/PantherToken.test.js:64-68 | With distinct parties, a settled transfer debits the sender exactly `amount` and credits recipient, burn sink and contract with net, burn and pool. All other balances are unchanged. |
| PonyToken.Token.constructor | test/PantherToken.test.js:13-15 | The deployer is owner and operator (the defaults below are the ones the tests read at lines 39-40, 161, 181, 201-207, 213 and 224). Tax is 500, burn 20, cap rate 50, liquify off with threshold 500·10^18. Owner, contract and burn sink are excluded. Supply is 0. |
| PonyToken.Token.MaxTransferAmount | test/PantherToken.test.js:160-175 | The cap is the current supply times the current rate over 10000, rounded down. It follows every mint and every rate update. |
| PonyToken.Token.TransferCheck | test/PantherToken.test.js:192-209 | A transfer passes its checks exactly when the anti-whale guard allows it, both parties are non-zero and the balance covers the amount. A capped amount fails with the cap reason, a zero party (past the guard) with the zero-address reason, and an uncovered amount (past both) with the balance reason. Every failure is one of the cap, zero-address or balance reasons. |
| PonyToken.Token.Settle | test/PantherToken.test.js:64-75 | Applies the burn, pool and net moves. Keeps `Valid()`, so the sum of balances still equals the supply. The new balances are `Settled` under the given split. |
| PonyToken.Token.Transfer | test/PantherToken.test.js:177-209 | Succeeds exactly when the anti-whale guard allows, both parties are non-zero and the balance covers the amount. A capped amount fails with the cap reason. On success the balances are settled under the current split, otherwise unchanged. The supply is conserved. |
| PonyToken.Token.Approve | test/PantherToken.test.js:70 | Sets the allowance of (owner, spender) to the amount. Zero addresses are refused. |
| PonyToken.Token.TransferFrom | test/PantherToken.test.js:70-75 | Same checks as `Transfer`, plus the allowance must cover the amount. On success the balances are settled and the allowance drops by the amount. On failure nothing changes. |
| PonyToken.Token.Mint | test/PantherToken.test.js:59-62 | Owner only, to a non-zero address. Credits the recipient and raises the supply by the same amount. Every other balance is unchanged. |
| PonyToken.Token.TransferOperator | test/PantherToken.test.js:27-33 | Only the operator may hand the role over, and never to the zero address. A refused call leaves the operator as it was. |
| PonyToken.Token.UpdateTransferTaxRate | test/PantherToken.test.js:35-46 | Operator only. Accepts rates up to 1000. A larger rate fails and keeps the old one. |
| PonyToken.Token.UpdateBurnRate | test/PantherToken.test.js:48-52 | Operator only. Accepts rates up to 100. A larger rate fails and keeps the old one. |
| PonyToken.Token.UpdateMaxTransferAmountRate | test/PantherToken.test.js:173-174 | Operator only. Stores the new cap rate, which the cap then follows. |
| PonyToken.Token.SetExcludedFromAntiWhale | test/PantherToken.test.js:181-183 | Operator only. Adds the account to the exclusion set or removes it. No other exclusion changes. |
| PonyToken.Token.UpdateSwapAndLiquifyEnabled | test/PantherToken.test.js:211-220 | Operator only. Stores the flag, which starts false. |
| PonyToken.Token.UpdateMinAmountToLiquify | test/PantherToken.test.js:222-231 | Operator only. Stores the threshold, which starts at 500·10^18. |
| PonyToken.Token.UpdatePonySwapRouter | test/PantherToken.test.js:22 | Operator only. Stores the router address. |
| TokenScenarios.TransferBalancesExample | test/PantherToken.test.js:59-75 | After minting 10000000 to alice, the settled transfers leave 9987655/11728/123/494, then 9965310/21228/346/1388. |
| TokenScenarios.SmallAmountBalancesExample | test/PantherToken.test.js:82-91 | 19 tokens leave alice 9999981 and bob 19. Burn sink and contract stay at 0. |
| TokenScenarios.NoTaxBalancesExample | test/PantherToken.test.js:101-113 | At tax rate 0, 10000 tokens leave alice 9990000 and bob 10000, with no burn and no pool. |
| TokenScenarios.BurnExtremesBalancesExample | test/PantherToken.test.js:123-157 | 1234 tokens leave alice 9998766 and bob 1173. The 61 of tax go to the pool at burn rate 0 and to the burn sink at burn rate 100. |
| TokenScenarios.DeployMinted | test/PantherToken.test.js:56-62 | After the operator handover and a mint of 10000000 to alice, the rates are 500/20, the supply is 10000000, the cap is 50000 and no address but alice holds tokens. |
| TokenScenarios.DeployForAntiWhale | test/PantherToken.test.js:178-192 | After the operator handover, its exclusion and five mints of 10000, the cap is 250 and the exclusion set is owner, contract, burn sink and operator. |
| PonyReferral.Attribute | test/PantherReferral.test.js:30-48 | An attributable referral adds exactly that user with that referrer. Any other offer leaves the table unchanged. Existing entries are never overwritten. |
| PonyReferral.Accrue | test/PantherReferral.test.js:58-68 | Raises the referrer's total by the commission, except for the zero address, and leaves every other total unchanged. |
| PonyReferral.AttributePreservesWellFormed | test/PantherReferral.test.js:30-35 | No referral makes the zero address a referee or a referrer, and none makes a user its own referrer. |
| PonyReferral.AttributeFirstWriteWins | test/PantherReferral.test.js:41-44 | Once a user is referred, a later offer with another referrer changes nothing. The first referrer stays. |
| PonyReferral.AttributeReferees | test/PantherReferral.test.js:37-48 | A recorded referral adds exactly its user to its referrer's referees, a user not among them before. Every other referrer's referees are unchanged. |
| PonyReferral.AttributeRefereeCount | test/PantherReferral.test.js:37-48 | A recorded referral raises its referrer's referee count by one and leaves all other counts unchanged. |
| PonyReferral.AccrueAdds | test/PantherReferral.test.js:58-65 | Two commissions to one referrer total the same as one commission of their sum (1, then 0, then 111 give 112). |
| PonyReferral.AccrueCommutes | test/PantherReferral.test.js:58-68 | Commissions to different referrers may be recorded in either order. |
| PonyReferral.Referral.constructor | test/PantherReferral.test.js:7-8 | The deployer is owner. There are no operators, referrals, counts or commissions. |
| PonyReferral.Referral.GetReferrer | test/PantherReferral.test.js:34-47 | Gives the recorded referrer of a user. In a valid registry it gives the zero address exactly when the user has no referrer. |
| PonyReferral.Referral.UpdateOperator | test/PantherReferral.test.js:12-23 | Owner only. Grants or revokes the operator role of one account and changes nothing else. |
| PonyReferral.Referral.RecordReferral | test/PantherReferral.test.js:25-49 | Operator only. The referrer table becomes `Attribute` of the old one, and a recorded referral raises the referrer's count by one. Offers that are not attributable change nothing but still succeed. Keeps the invariant that every count equals its number of referees. |
| PonyReferral.Referral.RecordReferralCommission | test/PantherReferral.test.js:51-69 | Operator only. The totals become `Accrue` of the old ones. The zero address's total stays 0. |
| PonyLocker.Bep20.constructor | test/PantherLocker.test.js:9 | The whole supply belongs to the deployer, and the balances add up to the supply. |
| PonyLocker.Bep20.Transfer | test/PantherLocker.test.js:17-18 | Moves the amount unchanged between non-zero addresses when the balance covers it. Otherwise nothing changes. The supply is conserved. |
| PonyLocker.ReleaseAll | test/PantherLocker.test.js:21-23 | Moving the locker's whole balance to another address leaves the locker at 0. It credits the destination with exactly the locker's prior balance and changes nothing else. |
| PonyLocker.Locker.constructor | test/PantherLocker.test.js:14 | The deployer is the locker's owner. |
| PonyLocker.Locker.Unlock | test/PantherLocker.test.js:13-24 | Owner only, to a non-zero address. Moves the locker's entire prior balance to `to`. For any `to` other than the locker, the locker is left at 0 and `to` gains exactly that balance. A refused call moves nothing. |

## Left out

- Fees.SplitOf: every transfer is taxed alike. Possible tax exemptions for excluded senders or recipients, and for transfers to the burn sink, are not modelled, because no test asserts a balance after such a transfer.
- PonyToken.Token.Transfer: the swap-and-liquify trigger is not modelled. That covers the conversion of the contract's pool through the external DEX router, the pair creation, which call code outside this model, and the reentrancy flag that guards those calls. `UpdatePonySwapRouter` only records the address.
- AntiWhale.Permits: a cap of 0 lets every transfer through. This is a modelling choice, because no test transfers at zero supply (the cap is shown as 0 at test/PantherToken.test.js:162).
- PonyToken.Token.UpdateMaxTransferAmountRate: no bound on the rate is modelled, because the tests show none.
- Integer widths: amounts and rates are unbounded `nat`. Overflow of the contracts' fixed-width integers is not modelled.
- Revert messages are reduced to the `Error` reasons in `Common`. Events, ownership transfer and token metadata (name, symbol, decimals) are not modelled.
- The comment at test/PantherToken.test.js:59 gives a cap of 25,000. The arithmetic at rate 50 gives 50,000, which the model follows (`AntiWhale.MaxTransferExamples`).
- PonyLocker.Bep20: the mock token used by the locker is only a balance table with a plain transfer. Allowances and minting of the mock are not modelled.
- Contract operations that no test exercises are not part of this model.
