/** PonyLocker: a vault that holds tokens until its owner releases them, together with the
    plain BEP20 token (no tax, no cap) whose balances it holds. */
module PonyLocker {
  import opened Common
  import opened Ledger

  /** A plain BEP20 token: the whole supply is minted to the deployer, and a transfer moves
      the amount unchanged from sender to recipient. */
  class Bep20 {
    var balances: map<Address, nat>
    var totalSupply: nat

    /** The balances add up to the total supply. */
    ghost predicate Valid()
      reads this
    {
      Total(balances) == totalSupply
    }

    constructor (deployer: Address, supply: nat)
      requires deployer != ZERO
      ensures Valid()
      ensures balances == map[deployer := supply] && totalSupply == supply
    {
      balances := map[deployer := supply];
      totalSupply := supply;
      UpdateTotal(map[], deployer, supply);
    }

    function BalanceOf(a: Address): nat
      reads this
    {
      Get(balances, a)
    }

    /** Moves `amount` from `caller` to `recipient`; reverts on a zero address or a balance
        that does not cover the amount. */
    method Transfer(caller: Address, recipient: Address, amount: nat) returns (r: Outcome)
      requires Valid()
      modifies this`balances
      ensures Valid()
      ensures r == Ok <==> caller != ZERO && recipient != ZERO && amount <= old(BalanceOf(caller))
      ensures (caller == ZERO || recipient == ZERO) ==> r == Fail(ZeroAddress)
      ensures r == Ok ==> balances == Move(old(balances), caller, recipient, amount)
      ensures r != Ok ==> balances == old(balances)
    {
      if caller == ZERO || recipient == ZERO {
        return Fail(ZeroAddress);
      }
      if amount > Get(balances, caller) {
        return Fail(ExceedsBalance);
      }
      balances := Move(balances, caller, recipient, amount);
      return Ok;
    }
  }

  /** Releasing the whole holding of `locker` to `to` empties the locker, credits `to` with
      everything the locker held, leaves every other balance and the total as they were. */
  lemma ReleaseAll(balances: map<Address, nat>, locker: Address, to: Address)
    requires locker != to
    ensures var after := Move(balances, locker, to, Get(balances, locker));
      && Get(after, locker) == 0
      && Get(after, to) == Get(balances, to) + Get(balances, locker)
      && (forall x :: x != locker && x != to ==> Get(after, x) == Get(balances, x))
      && Total(after) == Total(balances)
  {
  }

  class Locker {
    /** The locker's own address, under which the tokens it holds are recorded. */
    const self: Address
    var owner: Address

    /** Deployment by `deployer` at `lockerAddress`; the deployer becomes the owner. */
    constructor (deployer: Address, lockerAddress: Address)
      requires lockerAddress != ZERO
      ensures self == lockerAddress && owner == deployer
    {
      self := lockerAddress;
      owner := deployer;
    }

    /** Owner only: sends the locker's entire balance of `token` to `to`. No time lock is
        enforced; the release is immediate. */
    method Unlock(caller: Address, token: Bep20, to: Address) returns (r: Outcome)
      requires self != ZERO && token.Valid()
      modifies token`balances
      ensures token.Valid()
      ensures r == Ok <==> caller == owner && to != ZERO
      ensures caller != owner ==> r == Fail(NotOwner)
      ensures r == Ok ==>
                token.balances == Move(old(token.balances), self, to, old(token.BalanceOf(self)))
      ensures r == Ok && to != self ==>
                && token.BalanceOf(self) == 0
                && token.BalanceOf(to) == old(token.BalanceOf(to)) + old(token.BalanceOf(self))
      ensures r != Ok ==> token.balances == old(token.balances)
    {
      if caller != owner {
        return Fail(NotOwner);
      }
      r := token.Transfer(self, to, token.BalanceOf(self));
      if r == Ok && to != self {
        ReleaseAll(old(token.balances), self, to);
      }
    }
  }

  /** The locker's documented behaviour: the deployer owns it, a deposit credits it, a
      stranger cannot unlock, and the owner's unlock hands the whole deposit on. */
  method OnlyOwnerScenario()
  {
    var bob, carol, owner, lockerAddress := 2, 3, 4, 10;
    var lp1 := new Bep20(owner, 1000000);
    var locker := new Locker(owner, lockerAddress);
    assert locker.owner == owner;

    var r := lp1.Transfer(owner, locker.self, 2000);
    assert r == Ok && lp1.BalanceOf(locker.self) == 2000;

    r := locker.Unlock(bob, lp1, bob);
    assert r == Fail(NotOwner) && lp1.BalanceOf(locker.self) == 2000;
    r := locker.Unlock(owner, lp1, carol);
    assert r == Ok;
    assert lp1.BalanceOf(carol) == 2000;
    assert lp1.BalanceOf(locker.self) == 0;
  }
}
