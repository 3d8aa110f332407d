/** The fee-on-transfer arithmetic of PonyToken: a transfer tax in basis points, of which a
    percentage is burnt and the remainder is kept by the token contract as liquidity. */
module Fees {

  /** Basis-point denominator of the transfer tax rate. */
  const TAX_DENOMINATOR: nat := 10000
  /** Percentage denominator of the burn rate. */
  const BURN_DENOMINATOR: nat := 100
  /** Largest transfer tax rate the operator may set (10%). */
  const MAX_TRANSFER_TAX_RATE: nat := 1000
  /** Largest burn rate the operator may set (all of the tax). */
  const MAX_BURN_RATE: nat := 100
  /** Rates at deployment: 5% tax, of which 20% is burnt. */
  const DEFAULT_TRANSFER_TAX_RATE: nat := 500
  const DEFAULT_BURN_RATE: nat := 20

  /** How a gross transfer amount is divided. */
  datatype Split = Split(net: nat, burn: nat, pool: nat)
  {
    /** The tax: what the recipient does not receive. */
    function Taxed(): nat { burn + pool }
  }

  /** The tax on `amount`: `amount * taxRate / 10000`, truncated. */
  function Tax(amount: nat, taxRate: nat): (tax: nat)
    requires taxRate <= MAX_TRANSFER_TAX_RATE
    ensures tax <= amount
    ensures tax * TAX_DENOMINATOR <= amount * taxRate < (tax + 1) * TAX_DENOMINATOR
  {
    assert amount * taxRate <= amount * TAX_DENOMINATOR by {
      MulLeft(amount, taxRate, TAX_DENOMINATOR);
    }
    amount * taxRate / TAX_DENOMINATOR
  }

  /** The burnt part of `tax`: `tax * burnRate / 100`, truncated. */
  function BurnPart(tax: nat, burnRate: nat): (burn: nat)
    requires burnRate <= MAX_BURN_RATE
    ensures burn <= tax
    ensures burn * BURN_DENOMINATOR <= tax * burnRate < (burn + 1) * BURN_DENOMINATOR
  {
    assert tax * burnRate <= tax * BURN_DENOMINATOR by {
      MulLeft(tax, burnRate, BURN_DENOMINATOR);
    }
    tax * burnRate / BURN_DENOMINATOR
  }

  /** The split of a transfer of `amount`: the recipient gets `amount` less the tax, the burn
      sink gets the burnt part of the tax, the contract keeps the rest of the tax. A zero tax
      rate is a plain transfer of the whole amount. */
  function SplitOf(amount: nat, taxRate: nat, burnRate: nat): (s: Split)
    requires taxRate <= MAX_TRANSFER_TAX_RATE && burnRate <= MAX_BURN_RATE
    ensures s.net + s.burn + s.pool == amount
  {
    if taxRate == 0 then
      Split(amount, 0, 0)
    else
      var tax := Tax(amount, taxRate);
      var burn := BurnPart(tax, burnRate);
      Split(amount - tax, burn, tax - burn)
  }

  /** The split rounds both divisions down: the tax is the largest whole number of tokens not
      above `amount * taxRate / 10000`, the burnt part the largest not above `tax * burnRate / 100`. */
  lemma SplitOfRounding(amount: nat, taxRate: nat, burnRate: nat)
    requires taxRate <= MAX_TRANSFER_TAX_RATE && burnRate <= MAX_BURN_RATE
    ensures var s := SplitOf(amount, taxRate, burnRate);
      s.Taxed() * TAX_DENOMINATOR <= amount * taxRate < (s.Taxed() + 1) * TAX_DENOMINATOR &&
      s.burn * BURN_DENOMINATOR <= s.Taxed() * burnRate < (s.burn + 1) * BURN_DENOMINATOR
  {
  }

  /** Multiplying by a larger factor gives a larger product. */
  lemma MulLeft(a: nat, x: nat, y: nat)
    requires x <= y
    ensures a * x <= a * y
  {
    var d := y - x;
    assert a * y == a * x + a * d;
  }

  /** The tax vanishes exactly when `amount * taxRate` is below one whole basis-point unit:
      19 tokens at 5% move untaxed, 20 do not. */
  lemma TaxVanishesIff(amount: nat, taxRate: nat)
    requires taxRate <= MAX_TRANSFER_TAX_RATE
    ensures Tax(amount, taxRate) == 0 <==> amount * taxRate < TAX_DENOMINATOR
  {
  }

  /** A larger transfer is never taxed less. */
  lemma TaxMonotone(a: nat, b: nat, taxRate: nat)
    requires a <= b && taxRate <= MAX_TRANSFER_TAX_RATE
    ensures Tax(a, taxRate) <= Tax(b, taxRate)
  {
    assert a * taxRate <= b * taxRate by {
      MulLeft(taxRate, a, b);
    }
  }

  /** With a zero tax rate the whole amount reaches the recipient. */
  lemma ZeroTaxRateMovesAll(amount: nat, burnRate: nat)
    requires burnRate <= MAX_BURN_RATE
    ensures SplitOf(amount, 0, burnRate) == Split(amount, 0, 0)
  {
  }

  /** With a zero burn rate the whole tax goes to the pool. */
  lemma ZeroBurnRatePoolsAll(amount: nat, taxRate: nat)
    requires taxRate <= MAX_TRANSFER_TAX_RATE
    ensures SplitOf(amount, taxRate, 0).burn == 0
    ensures SplitOf(amount, taxRate, 0).pool == Tax(amount, taxRate)
  {
  }

  /** With the maximal burn rate the whole tax is burnt and the pool gets nothing. */
  lemma FullBurnRateBurnsAll(amount: nat, taxRate: nat)
    requires taxRate <= MAX_TRANSFER_TAX_RATE
    ensures SplitOf(amount, taxRate, MAX_BURN_RATE).burn == Tax(amount, taxRate)
    ensures SplitOf(amount, taxRate, MAX_BURN_RATE).pool == 0
  {
  }

  /** Once `amount * taxRate` reaches one basis-point unit, the burn and the pool together
      receive something: no taxed transfer of that size is fee-free. */
  lemma LargeTransferPaysTax(amount: nat, taxRate: nat, burnRate: nat)
    requires taxRate <= MAX_TRANSFER_TAX_RATE && burnRate <= MAX_BURN_RATE
    requires amount * taxRate >= TAX_DENOMINATOR
    ensures SplitOf(amount, taxRate, burnRate).burn + SplitOf(amount, taxRate, burnRate).pool > 0
  {
  }

  /** The splits of the two default-rate transfers of 12345 and 22345 tokens. */
  lemma SplitExampleDefaultRates()
    ensures SplitOf(12345, DEFAULT_TRANSFER_TAX_RATE, DEFAULT_BURN_RATE) == Split(11728, 123, 494)
    ensures SplitOf(22345, DEFAULT_TRANSFER_TAX_RATE, DEFAULT_BURN_RATE) == Split(21228, 223, 894)
  {
  }

  /** 19 tokens at the default rates: the tax truncates to zero and all 19 arrive. */
  lemma SplitExampleSmallAmount()
    ensures SplitOf(19, DEFAULT_TRANSFER_TAX_RATE, DEFAULT_BURN_RATE) == Split(19, 0, 0)
  {
  }

  /** 1234 tokens at 5% tax with no burn, and with all of the tax burnt. */
  lemma SplitExampleBurnExtremes()
    ensures SplitOf(1234, DEFAULT_TRANSFER_TAX_RATE, 0) == Split(1173, 0, 61)
    ensures SplitOf(1234, DEFAULT_TRANSFER_TAX_RATE, MAX_BURN_RATE) == Split(1173, 61, 0)
  {
  }
}
