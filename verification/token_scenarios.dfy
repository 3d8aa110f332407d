/** Client code that replays PonyToken's documented call sequences and shows that the
    contracts of `PonyToken.Token` alone determine every reported value. */
module TokenScenarios {
  import opened Common
  import opened Ledger
  import Fees
  import AntiWhale
  import opened PonyToken

  const ALICE: Address := 1
  const BOB: Address := 2
  const CAROL: Address := 3
  const OPERATOR: Address := 4
  const OWNER: Address := 5
  const TOKEN: Address := 6

  /** ALICE holds 10000000 freshly minted tokens; BOB, CAROL, the burn sink and the token
      contract hold nothing. */
  ghost predicate AfterMint(b: map<Address, nat>)
  {
    Get(b, ALICE) == 10000000 && Get(b, BOB) == 0 && Get(b, CAROL) == 0
    && Get(b, BURN) == 0 && Get(b, TOKEN) == 0
  }

  /** At the default rates, 12345 from ALICE to BOB and then 22345 from ALICE to CAROL leave
      the balances the token reports after each step. */
  lemma TransferBalancesExample(b0: map<Address, nat>, b1: map<Address, nat>, b2: map<Address, nat>)
    requires AfterMint(b0)
    requires Settled(b0, b1, ALICE, BOB, TOKEN, 12345, Fees.SplitOf(12345, 500, 20))
    requires Settled(b1, b2, ALICE, CAROL, TOKEN, 22345, Fees.SplitOf(22345, 500, 20))
    ensures Get(b1, ALICE) == 9987655 && Get(b1, BOB) == 11728
    ensures Get(b1, BURN) == 123 && Get(b1, TOKEN) == 494
    ensures Get(b2, ALICE) == 9965310 && Get(b2, CAROL) == 21228
    ensures Get(b2, BURN) == 346 && Get(b2, TOKEN) == 1388
  {
    Fees.SplitExampleDefaultRates();
    SettledDistinct(b0, b1, ALICE, BOB, TOKEN, 12345, Fees.SplitOf(12345, 500, 20));
    SettledDistinct(b1, b2, ALICE, CAROL, TOKEN, 22345, Fees.SplitOf(22345, 500, 20));
  }

  /** 19 tokens at the default rates arrive whole; nothing is burnt or pooled. */
  lemma SmallAmountBalancesExample(b0: map<Address, nat>, b1: map<Address, nat>)
    requires AfterMint(b0)
    requires Settled(b0, b1, ALICE, BOB, TOKEN, 19, Fees.SplitOf(19, Fees.DEFAULT_TRANSFER_TAX_RATE, Fees.DEFAULT_BURN_RATE))
    ensures Get(b1, ALICE) == 9999981 && Get(b1, BOB) == 19
    ensures Get(b1, BURN) == 0 && Get(b1, TOKEN) == 0
  {
    Fees.SplitExampleSmallAmount();
    SettledDistinct(b0, b1, ALICE, BOB, TOKEN, 19, Fees.SplitOf(19, Fees.DEFAULT_TRANSFER_TAX_RATE, Fees.DEFAULT_BURN_RATE));
  }

  /** With a zero tax rate 10000 tokens arrive whole. */
  lemma NoTaxBalancesExample(b0: map<Address, nat>, b1: map<Address, nat>)
    requires AfterMint(b0)
    requires Settled(b0, b1, ALICE, BOB, TOKEN, 10000, Fees.SplitOf(10000, 0, 20))
    ensures Get(b1, ALICE) == 9990000 && Get(b1, BOB) == 10000
    ensures Get(b1, BURN) == 0 && Get(b1, TOKEN) == 0
  {
    Fees.ZeroTaxRateMovesAll(10000, 20);
    SettledDistinct(b0, b1, ALICE, BOB, TOKEN, 10000, Fees.SplitOf(10000, 0, 20));
  }

  /** 1234 tokens at 5%: with no burn the 61 tokens of tax are pooled, with a full burn they
      are burnt. */
  lemma BurnExtremesBalancesExample(b0: map<Address, nat>, b1: map<Address, nat>, burnRate: nat)
    requires AfterMint(b0) && (burnRate == 0 || burnRate == 100)
    requires Settled(b0, b1, ALICE, BOB, TOKEN, 1234, Fees.SplitOf(1234, 500, burnRate))
    ensures Get(b1, ALICE) == 9998766 && Get(b1, BOB) == 1173
    ensures Get(b1, BURN) == (if burnRate == 100 then 61 else 0)
    ensures Get(b1, TOKEN) == (if burnRate == 100 then 0 else 61)
  {
    Fees.SplitExampleBurnExtremes();
    SettledDistinct(b0, b1, ALICE, BOB, TOKEN, 1234, Fees.SplitOf(1234, 500, burnRate));
  }


  /** Every operator-only call reverts for anyone but the operator, who starts as the owner. */
  method OnlyOperatorScenario() {
    var t := new Token(OWNER, TOKEN);
    assert t.owner == OWNER && t.operator == OWNER;
    var r := t.UpdateTransferTaxRate(OPERATOR, 500);
    assert r == Fail(NotOperator);
    r := t.UpdateBurnRate(OPERATOR, 20);
    assert r == Fail(NotOperator);
    r := t.UpdateMaxTransferAmountRate(OPERATOR, 100);
    assert r == Fail(NotOperator);
    r := t.UpdateSwapAndLiquifyEnabled(OPERATOR, true);
    assert r == Fail(NotOperator) && !t.swapAndLiquifyEnabled;
    r := t.SetExcludedFromAntiWhale(OPERATOR, OPERATOR, true);
    assert r == Fail(NotOperator);
    r := t.UpdatePonySwapRouter(OPERATOR, OPERATOR);
    assert r == Fail(NotOperator);
    r := t.UpdateMinAmountToLiquify(OPERATOR, 100);
    assert r == Fail(NotOperator) && t.minAmountToLiquify == DEFAULT_MIN_AMOUNT_TO_LIQUIFY;
    r := t.TransferOperator(OPERATOR, ALICE);
    assert r == Fail(NotOperator);
    r := t.TransferOperator(OWNER, OPERATOR);
    assert r == Ok && t.operator == OPERATOR;
    r := t.TransferOperator(OPERATOR, ZERO);
    assert r == Fail(ZeroAddress) && t.operator == OPERATOR;
    r := t.UpdateSwapAndLiquifyEnabled(OPERATOR, true);
    assert t.swapAndLiquifyEnabled;
    r := t.UpdateMinAmountToLiquify(OPERATOR, 100);
    assert t.minAmountToLiquify == 100;
  }

  /** Tax and burn rates accept their bounds and refuse one more, keeping the old rate. */
  method RateBoundsScenario() {
    var t := new Token(OWNER, TOKEN);
    var r := t.TransferOperator(OWNER, OPERATOR);
    assert t.transferTaxRate == 500 && t.burnRate == 20;
    r := t.UpdateTransferTaxRate(OPERATOR, 0);
    assert t.transferTaxRate == 0;
    r := t.UpdateTransferTaxRate(OPERATOR, 1000);
    assert t.transferTaxRate == 1000;
    r := t.UpdateTransferTaxRate(OPERATOR, 1001);
    assert r == Fail(RateTooHigh) && t.transferTaxRate == 1000;
    r := t.UpdateBurnRate(OPERATOR, 0);
    assert t.burnRate == 0;
    r := t.UpdateBurnRate(OPERATOR, 100);
    assert t.burnRate == 100;
    r := t.UpdateBurnRate(OPERATOR, 101);
    assert r == Fail(RateTooHigh) && t.burnRate == 100;
  }

  /** A fresh token whose operator has been handed over and where ALICE holds 10000000 newly
      minted tokens, so the cap is 50000. */
  method DeployMinted() returns (t: Token)
    ensures fresh(t) && t.Valid() && t.self == TOKEN && t.owner == OWNER && t.operator == OPERATOR
    ensures t.transferTaxRate == Fees.DEFAULT_TRANSFER_TAX_RATE && t.burnRate == Fees.DEFAULT_BURN_RATE
    ensures t.MaxTransferAmount() == 50000 && t.excludedFromAntiWhale == {OWNER, TOKEN, BURN}
    ensures AfterMint(t.balances)
    ensures t.totalSupply == 10000000 && forall a :: a != ALICE ==> t.BalanceOf(a) == 0
  {
    t := new Token(OWNER, TOKEN);
    var r := t.TransferOperator(OWNER, OPERATOR);
    assert t.BalanceOf(BOB) == 0 && t.BalanceOf(CAROL) == 0 && t.BalanceOf(BURN) == 0 && t.BalanceOf(TOKEN) == 0;
    r := t.Mint(OWNER, ALICE, 10000000);
    assert t.BalanceOf(BOB) == 0 && t.BalanceOf(CAROL) == 0 && t.BalanceOf(BURN) == 0 && t.BalanceOf(TOKEN) == 0;
    AntiWhale.MaxTransferExamples();
  }

  /** 12345 from ALICE to BOB by transfer, then 22345 from ALICE to CAROL by transferFrom,
      leave the balances the token reports and use up the allowance. */
  method TransferScenario() {
    var t := DeployMinted();
    ghost var b0 := t.balances;
    var r := t.Transfer(ALICE, BOB, 12345);
    assert r == Ok;
    ghost var b1 := t.balances;
    r := t.Approve(ALICE, CAROL, 22345);
    assert t.Allowance(ALICE, CAROL) == 22345;
    assert t.BalanceOf(ALICE) >= 22345;
    r := t.TransferFrom(CAROL, ALICE, CAROL, 22345);
    assert r == Ok && t.Allowance(ALICE, CAROL) == 0;
    TransferBalancesExample(b0, b1, t.balances);
    assert t.BalanceOf(ALICE) == 9965310 && t.BalanceOf(CAROL) == 21228;
    assert t.BalanceOf(BURN) == 346 && t.BalanceOf(TOKEN) == 1388;
  }

  /** 19 tokens at the default rates arrive whole. */
  method SmallAmountScenario() {
    var t := DeployMinted();
    ghost var b0 := t.balances;
    var r := t.Transfer(ALICE, BOB, 19);
    assert r == Ok;
    SmallAmountBalancesExample(b0, t.balances);
    assert t.BalanceOf(ALICE) == 9999981 && t.BalanceOf(BOB) == 19;
    assert t.BalanceOf(BURN) == 0 && t.BalanceOf(TOKEN) == 0;
  }

  /** After the tax rate is set to 0, 10000 tokens arrive whole. */
  method NoTaxScenario() {
    var t := DeployMinted();
    var r := t.UpdateTransferTaxRate(OPERATOR, 0);
    assert t.transferTaxRate == 0 && t.burnRate == 20;
    ghost var b0 := t.balances;
    r := t.Transfer(ALICE, BOB, 10000);
    assert r == Ok;
    NoTaxBalancesExample(b0, t.balances);
    assert t.BalanceOf(ALICE) == 9990000 && t.BalanceOf(BOB) == 10000;
    assert t.BalanceOf(BURN) == 0 && t.BalanceOf(TOKEN) == 0;
  }

  /** After the burn rate is set to 0 or to 100, the 61 tokens of tax on 1234 go to the pool
      or to the burn sink. */
  method BurnExtremesScenario(burnRate: nat)
    requires burnRate == 0 || burnRate == 100
  {
    var t := DeployMinted();
    var r := t.UpdateBurnRate(OPERATOR, burnRate);
    assert t.transferTaxRate == 500 && t.burnRate == burnRate;
    ghost var b0 := t.balances;
    r := t.Transfer(ALICE, BOB, 1234);
    assert r == Ok;
    BurnExtremesBalancesExample(b0, t.balances, burnRate);
    assert t.BalanceOf(ALICE) == 9998766 && t.BalanceOf(BOB) == 1173;
    assert t.BalanceOf(BURN) == (if burnRate == 100 then 61 else 0);
    assert t.BalanceOf(TOKEN) == (if burnRate == 100 then 0 else 61);
  }

  /** The cap follows the supply and the rate. */
  method MaxTransferAmountScenario() {
    var t := new Token(OWNER, TOKEN);
    AntiWhale.MaxTransferExamples();
    assert t.maxTransferAmountRate == 50 && t.MaxTransferAmount() == 0;
    var r := t.Mint(OWNER, ALICE, 1000000);
    assert t.MaxTransferAmount() == 5000;
    r := t.Mint(OWNER, ALICE, 1000);
    assert t.MaxTransferAmount() == 5005;
    r := t.TransferOperator(OWNER, OPERATOR);
    r := t.UpdateMaxTransferAmountRate(OPERATOR, 100);
    assert t.MaxTransferAmount() == 10010;
  }

  /** The anti-whale set-up: the operator is handed over and excluded, and five accounts
      receive 10000 tokens each, so the supply is 50000 and the cap 250. */
  method DeployForAntiWhale() returns (t: Token)
    ensures fresh(t) && t.Valid() && t.self == TOKEN && t.owner == OWNER && t.operator == OPERATOR
    ensures t.MaxTransferAmount() == 250
    ensures t.BalanceOf(ALICE) == 10000 && t.BalanceOf(OPERATOR) == 10000 && t.BalanceOf(OWNER) == 10000
    ensures t.excludedFromAntiWhale == {OWNER, TOKEN, BURN, OPERATOR}
  {
    t := new Token(OWNER, TOKEN);
    var r := t.TransferOperator(OWNER, OPERATOR);
    assert !t.IsExcludedFromAntiWhale(OPERATOR);
    r := t.SetExcludedFromAntiWhale(OPERATOR, OPERATOR, true);
    assert t.IsExcludedFromAntiWhale(OPERATOR);
    assert t.totalSupply == 0 && t.balances == map[];
    r := t.Mint(OWNER, ALICE, 10000);
    assert t.totalSupply == 10000 && t.BalanceOf(ALICE) == 10000;
    r := t.Mint(OWNER, BOB, 10000);
    r := t.Mint(OWNER, CAROL, 10000);
    assert t.totalSupply == 30000 && t.BalanceOf(ALICE) == 10000;
    r := t.Mint(OWNER, OPERATOR, 10000);
    assert t.totalSupply == 40000 && t.BalanceOf(ALICE) == 10000 && t.BalanceOf(OPERATOR) == 10000;
    r := t.Mint(OWNER, OWNER, 10000);
    assert t.totalSupply == 50000 && t.maxTransferAmountRate == AntiWhale.DEFAULT_MAX_TRANSFER_AMOUNT_RATE;
    AntiWhale.MaxTransferExamples();
  }

  /** On one deployment: 251 between ordinary accounts reverts, by transfer and by
      transferFrom; 250 passes both ways; then 251 passes whenever an excluded party is on
      either side. */
  method AntiWhaleScenario() {
    var t := DeployForAntiWhale();
    var r := t.Transfer(ALICE, BOB, 251);
    assert r == Fail(ExceedsMaxTransfer);
    r := t.Approve(ALICE, CAROL, 251);
    r := t.TransferFrom(CAROL, ALICE, CAROL, 251);
    assert r == Fail(ExceedsMaxTransfer);

    r := t.Transfer(ALICE, BOB, 250);
    assert r == Ok;
    r := t.TransferFrom(CAROL, ALICE, CAROL, 250);
    assert r == Ok;

    r := t.Transfer(ALICE, BURN, 251);
    assert r == Ok;
    r := t.Transfer(ALICE, OPERATOR, 251);
    assert r == Ok;
    r := t.Transfer(ALICE, OWNER, 251);
    assert r == Ok;
    r := t.Transfer(ALICE, TOKEN, 251);
    assert r == Ok;

    r := t.Transfer(OPERATOR, ALICE, 251);
    assert r == Ok;
    r := t.Transfer(OWNER, ALICE, 251);
    assert r == Ok;
    r := t.Transfer(OPERATOR, OWNER, 251);
    assert r == Ok;
  }
}
