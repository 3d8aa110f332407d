/** PonyToken: a BEP20 token whose transfers pay a tax (partly burnt, the rest kept by the
    contract for liquidity) and are capped by an anti-whale limit, with an operator role that
    tunes the economic parameters. */
module PonyToken {
  import opened Common
  import opened Ledger
  import Fees
  import AntiWhale

  /** Liquify threshold at deployment: 500 tokens of 18 decimals. */
  const DEFAULT_MIN_AMOUNT_TO_LIQUIFY: nat := 500 * 1_000_000_000_000_000_000

  /** `after` is `before` with a taxed transfer of `amount` from `sender` to `recipient`
      applied under the split `s`: the sender pays `amount`, the recipient receives the net,
      the burn sink the burnt part and the token contract `self` the pool part; a party that
      plays several of these roles receives the sum. */
  ghost predicate Settled(before: map<Address, nat>, after: map<Address, nat>, sender: Address,
                          recipient: Address, self: Address, amount: nat, s: Fees.Split)
  {
    forall x :: Get(after, x) + (if x == sender then amount else 0)
      == Get(before, x) + (if x == recipient then s.net else 0)
         + (if x == BURN then s.burn else 0) + (if x == self then s.pool else 0)
  }

  /** With the four parties distinct, a settled transfer debits the sender exactly `amount`,
      credits the recipient the net, the burn sink the burnt part and the contract the pool
      part, and leaves every other balance as it was. */
  lemma SettledDistinct(before: map<Address, nat>, after: map<Address, nat>, sender: Address,
                        recipient: Address, self: Address, amount: nat, s: Fees.Split)
    requires Settled(before, after, sender, recipient, self, amount, s)
    requires sender != recipient && sender != BURN && sender != self
    requires recipient != BURN && recipient != self && self != BURN
    ensures Get(after, sender) + amount == Get(before, sender)
    ensures Get(after, recipient) == Get(before, recipient) + s.net
    ensures Get(after, BURN) == Get(before, BURN) + s.burn
    ensures Get(after, self) == Get(before, self) + s.pool
    ensures forall x :: x != sender && x != recipient && x != BURN && x != self ==>
              Get(after, x) == Get(before, x)
  {
  }

  class Token {
    /** The token contract's own address, which holds the liquidity part of every tax. */
    const self: Address
    var owner: Address
    var operator: Address
    var balances: map<Address, nat>
    var allowances: map<(Address, Address), nat>
    var totalSupply: nat
    var transferTaxRate: nat
    var burnRate: nat
    var maxTransferAmountRate: nat
    var excludedFromAntiWhale: set<Address>
    var swapAndLiquifyEnabled: bool
    var minAmountToLiquify: nat
    var router: Address

    /** The balances add up to the total supply, and the rates are within their bounds. */
    ghost predicate Valid()
      reads this
    {
      && Total(balances) == totalSupply
      && transferTaxRate <= Fees.MAX_TRANSFER_TAX_RATE
      && burnRate <= Fees.MAX_BURN_RATE
    }

    /** Deployment by `deployer` at `tokenAddress`: the deployer is owner and operator, and the
        deployer, the contract itself and the burn sink are excluded from the anti-whale cap. */
    constructor (deployer: Address, tokenAddress: Address)
      ensures Valid()
      ensures self == tokenAddress && owner == deployer && operator == deployer
      ensures balances == map[] && allowances == map[] && totalSupply == 0
      ensures transferTaxRate == Fees.DEFAULT_TRANSFER_TAX_RATE && burnRate == Fees.DEFAULT_BURN_RATE
      ensures maxTransferAmountRate == AntiWhale.DEFAULT_MAX_TRANSFER_AMOUNT_RATE
      ensures excludedFromAntiWhale == {deployer, tokenAddress, BURN}
      ensures !swapAndLiquifyEnabled && minAmountToLiquify == DEFAULT_MIN_AMOUNT_TO_LIQUIFY
      ensures router == ZERO
    {
      self := tokenAddress;
      owner, operator := deployer, deployer;
      balances, allowances, totalSupply := map[], map[], 0;
      transferTaxRate, burnRate := Fees.DEFAULT_TRANSFER_TAX_RATE, Fees.DEFAULT_BURN_RATE;
      maxTransferAmountRate := AntiWhale.DEFAULT_MAX_TRANSFER_AMOUNT_RATE;
      excludedFromAntiWhale := {deployer, tokenAddress, BURN};
      swapAndLiquifyEnabled, minAmountToLiquify := false, DEFAULT_MIN_AMOUNT_TO_LIQUIFY;
      router := ZERO;
      UpdateTotal(map[], ZERO, 0);
    }

    function BalanceOf(a: Address): nat
      reads this
    {
      Get(balances, a)
    }

    function Allowance(holder: Address, spender: Address): nat
      reads this
    {
      if (holder, spender) in allowances then allowances[(holder, spender)] else 0
    }

    /** The anti-whale cap under the current supply and rate: the supply's share at that
        rate in basis points, rounded down. */
    function MaxTransferAmount(): (cap: nat)
      reads this
      ensures cap * AntiWhale.RATE_DENOMINATOR <= totalSupply * maxTransferAmountRate
              < (cap + 1) * AntiWhale.RATE_DENOMINATOR
    {
      AntiWhale.MaxTransfer(totalSupply, maxTransferAmountRate)
    }

    predicate IsExcludedFromAntiWhale(a: Address)
      reads this
    {
      a in excludedFromAntiWhale
    }

    /** Whether the anti-whale guard lets `sender` move `amount` to `recipient`. */
    predicate AntiWhaleAllows(sender: Address, recipient: Address, amount: nat)
      reads this
    {
      AntiWhale.Permits(MaxTransferAmount(), IsExcludedFromAntiWhale(sender),
                        IsExcludedFromAntiWhale(recipient), amount)
    }

    /** The revert reason of a transfer. The order of the checks is a modelling choice: the
        anti-whale guard first, then the parties, then the sender's balance. */
    function TransferCheck(sender: Address, recipient: Address, amount: nat): (r: Outcome)
      reads this
      ensures r == Ok <==> AntiWhaleAllows(sender, recipient, amount) && sender != ZERO
                           && recipient != ZERO && amount <= BalanceOf(sender)
      ensures !AntiWhaleAllows(sender, recipient, amount) ==> r == Fail(ExceedsMaxTransfer)
      ensures AntiWhaleAllows(sender, recipient, amount) && (sender == ZERO || recipient == ZERO) ==>
                r == Fail(ZeroAddress)
      ensures AntiWhaleAllows(sender, recipient, amount) && sender != ZERO && recipient != ZERO &&
                amount > BalanceOf(sender) ==>
                r == Fail(ExceedsBalance)
      ensures r != Ok ==> r.error in {ExceedsMaxTransfer, ZeroAddress, ExceedsBalance}
    {
      if !AntiWhaleAllows(sender, recipient, amount) then Fail(ExceedsMaxTransfer)
      else if sender == ZERO || recipient == ZERO then Fail(ZeroAddress)
      else if amount > BalanceOf(sender) then Fail(ExceedsBalance)
      else Ok
    }

    /** The revert reason of an operator-only call. */
    function OnlyOperator(caller: Address): Outcome
      reads this
    {
      if caller == operator then Ok else Fail(NotOperator)
    }

    /** How a transfer of `amount` is divided under the current rates. */
    function CurrentSplit(amount: nat): Fees.Split
      reads this
      requires Valid()
    {
      Fees.SplitOf(amount, transferTaxRate, burnRate)
    }

    /** The balance updates of a transfer that passed its checks, under the split `s`: the
        burnt part, then the pool part, then the net amount leave the sender. */
    method Settle(sender: Address, recipient: Address, amount: nat, s: Fees.Split)
      requires Valid() && amount <= BalanceOf(sender) && s.net + s.burn + s.pool == amount
      modifies this`balances
      ensures Valid()
      ensures Settled(old(balances), balances, sender, recipient, self, amount, s)
    {
      ghost var b0 := balances;
      balances := Move(balances, sender, BURN, s.burn);
      ghost var b1 := balances;
      balances := Move(balances, sender, self, s.pool);
      ghost var b2 := balances;
      balances := Move(balances, sender, recipient, s.net);
      forall x
        ensures Get(balances, x) + (if x == sender then amount else 0)
          == Get(b0, x) + (if x == recipient then s.net else 0)
             + (if x == BURN then s.burn else 0) + (if x == self then s.pool else 0)
      {
        assert Get(b1, x) + (if x == sender then s.burn else 0) == Get(b0, x) + (if x == BURN then s.burn else 0);
        assert Get(b2, x) + (if x == sender then s.pool else 0) == Get(b1, x) + (if x == self then s.pool else 0);
      }
    }

    /** `transfer(recipient, amount)` sent by `caller`. */
    method Transfer(caller: Address, recipient: Address, amount: nat) returns (r: Outcome)
      requires Valid()
      modifies this`balances
      ensures Valid()
      ensures r == Ok <==> (old(AntiWhaleAllows(caller, recipient, amount)) && caller != ZERO
                            && recipient != ZERO && amount <= old(BalanceOf(caller)))
      ensures !old(AntiWhaleAllows(caller, recipient, amount)) ==> r == Fail(ExceedsMaxTransfer)
      ensures r == Ok ==> Settled(old(balances), balances, caller, recipient, self, amount, CurrentSplit(amount))
      ensures r != Ok ==> balances == old(balances)
    {
      r := TransferCheck(caller, recipient, amount);
      if r == Ok {
        Settle(caller, recipient, amount, CurrentSplit(amount));
      }
    }

    /** `approve(spender, amount)` sent by `caller`. */
    method Approve(caller: Address, spender: Address, amount: nat) returns (r: Outcome)
      requires Valid()
      modifies this`allowances
      ensures Valid()
      ensures r == Ok <==> caller != ZERO && spender != ZERO
      ensures allowances == if r == Ok then old(allowances)[(caller, spender) := amount] else old(allowances)
    {
      if caller == ZERO || spender == ZERO {
        return Fail(ZeroAddress);
      }
      allowances := allowances[(caller, spender) := amount];
      r := Ok;
    }

    /** `transferFrom(sender, recipient, amount)` sent by `caller`, spending its allowance. */
    method TransferFrom(caller: Address, sender: Address, recipient: Address, amount: nat) returns (r: Outcome)
      requires Valid()
      modifies this`balances, this`allowances
      ensures Valid()
      ensures r == Ok <==> (old(AntiWhaleAllows(sender, recipient, amount)) && sender != ZERO
                            && recipient != ZERO && amount <= old(BalanceOf(sender))
                            && amount <= old(Allowance(sender, caller)))
      ensures !old(AntiWhaleAllows(sender, recipient, amount)) ==> r == Fail(ExceedsMaxTransfer)
      ensures r == Ok ==> Settled(old(balances), balances, sender, recipient, self, amount, CurrentSplit(amount))
      ensures r == Ok ==> allowances == old(allowances)[(sender, caller) := old(Allowance(sender, caller)) - amount]
      ensures r != Ok ==> balances == old(balances) && allowances == old(allowances)
    {
      r := TransferCheck(sender, recipient, amount);
      if r != Ok {
        return;
      }
      if amount > Allowance(sender, caller) {
        return Fail(ExceedsAllowance);
      }
      Settle(sender, recipient, amount, CurrentSplit(amount));
      allowances := allowances[(sender, caller) := Allowance(sender, caller) - amount];
    }

    /** `mint(to, amount)`, owner only: creates `amount` tokens for `to`. */
    method Mint(caller: Address, to: Address, amount: nat) returns (r: Outcome)
      requires Valid()
      modifies this`balances, this`totalSupply
      ensures Valid()
      ensures r == Ok <==> caller == owner && to != ZERO
      ensures caller != owner ==> r == Fail(NotOwner)
      ensures r == Ok ==> totalSupply == old(totalSupply) + amount
      ensures r == Ok ==> BalanceOf(to) == old(BalanceOf(to)) + amount
      ensures forall a :: a != to ==> BalanceOf(a) == old(BalanceOf(a))
      ensures r != Ok ==> balances == old(balances) && totalSupply == old(totalSupply)
    {
      if caller != owner {
        return Fail(NotOwner);
      }
      if to == ZERO {
        return Fail(ZeroAddress);
      }
      totalSupply := totalSupply + amount;
      balances := Credit(balances, to, amount);
      r := Ok;
    }

    /** `transferOperator(newOperator)`, operator only; the zero address is refused. */
    method TransferOperator(caller: Address, newOperator: Address) returns (r: Outcome)
      requires Valid()
      modifies this`operator
      ensures Valid()
      ensures r == Ok <==> caller == old(operator) && newOperator != ZERO
      ensures caller != old(operator) ==> r == Fail(NotOperator)
      ensures caller == old(operator) && newOperator == ZERO ==> r == Fail(ZeroAddress)
      ensures operator == if r == Ok then newOperator else old(operator)
    {
      r := OnlyOperator(caller);
      if r != Ok {
        return;
      }
      if newOperator == ZERO {
        return Fail(ZeroAddress);
      }
      operator := newOperator;
    }

    /** `updateTransferTaxRate(rate)`, operator only, at most 10%. */
    method UpdateTransferTaxRate(caller: Address, rate: nat) returns (r: Outcome)
      requires Valid()
      modifies this`transferTaxRate
      ensures Valid()
      ensures r == Ok <==> caller == operator && rate <= Fees.MAX_TRANSFER_TAX_RATE
      ensures caller != operator ==> r == Fail(NotOperator)
      ensures caller == operator && rate > Fees.MAX_TRANSFER_TAX_RATE ==> r == Fail(RateTooHigh)
      ensures transferTaxRate == if r == Ok then rate else old(transferTaxRate)
    {
      r := OnlyOperator(caller);
      if r != Ok {
        return;
      }
      if rate > Fees.MAX_TRANSFER_TAX_RATE {
        return Fail(RateTooHigh);
      }
      transferTaxRate := rate;
    }

    /** `updateBurnRate(rate)`, operator only, at most 100% of the tax. */
    method UpdateBurnRate(caller: Address, rate: nat) returns (r: Outcome)
      requires Valid()
      modifies this`burnRate
      ensures Valid()
      ensures r == Ok <==> caller == operator && rate <= Fees.MAX_BURN_RATE
      ensures caller != operator ==> r == Fail(NotOperator)
      ensures caller == operator && rate > Fees.MAX_BURN_RATE ==> r == Fail(RateTooHigh)
      ensures burnRate == if r == Ok then rate else old(burnRate)
    {
      r := OnlyOperator(caller);
      if r != Ok {
        return;
      }
      if rate > Fees.MAX_BURN_RATE {
        return Fail(RateTooHigh);
      }
      burnRate := rate;
    }

    /** `updateMaxTransferAmountRate(rate)`, operator only. */
    method UpdateMaxTransferAmountRate(caller: Address, rate: nat) returns (r: Outcome)
      requires Valid()
      modifies this`maxTransferAmountRate
      ensures Valid()
      ensures r == Ok <==> caller == operator
      ensures r != Ok ==> r == Fail(NotOperator)
      ensures maxTransferAmountRate == if r == Ok then rate else old(maxTransferAmountRate)
    {
      r := OnlyOperator(caller);
      if r == Ok {
        maxTransferAmountRate := rate;
      }
    }

    /** `setExcludedFromAntiWhale(account, excluded)`, operator only. */
    method SetExcludedFromAntiWhale(caller: Address, account: Address, excluded: bool) returns (r: Outcome)
      requires Valid()
      modifies this`excludedFromAntiWhale
      ensures Valid()
      ensures r == Ok <==> caller == operator
      ensures r != Ok ==> r == Fail(NotOperator)
      ensures r == Ok ==> (IsExcludedFromAntiWhale(account) <==> excluded)
      ensures excludedFromAntiWhale ==
                if r != Ok then old(excludedFromAntiWhale)
                else if excluded then old(excludedFromAntiWhale) + {account}
                else old(excludedFromAntiWhale) - {account}
    {
      r := OnlyOperator(caller);
      if r == Ok {
        excludedFromAntiWhale := if excluded then excludedFromAntiWhale + {account}
                                 else excludedFromAntiWhale - {account};
      }
    }

    /** `updateSwapAndLiquifyEnabled(enabled)`, operator only. */
    method UpdateSwapAndLiquifyEnabled(caller: Address, enabled: bool) returns (r: Outcome)
      requires Valid()
      modifies this`swapAndLiquifyEnabled
      ensures Valid()
      ensures r == Ok <==> caller == operator
      ensures r != Ok ==> r == Fail(NotOperator)
      ensures swapAndLiquifyEnabled == if r == Ok then enabled else old(swapAndLiquifyEnabled)
    {
      r := OnlyOperator(caller);
      if r == Ok {
        swapAndLiquifyEnabled := enabled;
      }
    }

    /** `updateMinAmountToLiquify(amount)`, operator only. */
    method UpdateMinAmountToLiquify(caller: Address, amount: nat) returns (r: Outcome)
      requires Valid()
      modifies this`minAmountToLiquify
      ensures Valid()
      ensures r == Ok <==> caller == operator
      ensures r != Ok ==> r == Fail(NotOperator)
      ensures minAmountToLiquify == if r == Ok then amount else old(minAmountToLiquify)
    {
      r := OnlyOperator(caller);
      if r == Ok {
        minAmountToLiquify := amount;
      }
    }

    /** `updatePonySwapRouter(router)`, operator only; records the router address. */
    method UpdatePonySwapRouter(caller: Address, newRouter: Address) returns (r: Outcome)
      requires Valid()
      modifies this`router
      ensures Valid()
      ensures r == Ok <==> caller == operator
      ensures r != Ok ==> r == Fail(NotOperator)
      ensures router == if r == Ok then newRouter else old(router)
    {
      r := OnlyOperator(caller);
      if r == Ok {
        router := newRouter;
      }
    }
  }
}
