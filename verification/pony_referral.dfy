/** PonyReferral: a registry, written only by an owner-managed set of operators, that
    attributes each user to the first referrer recorded for it, counts each referrer's
    referees and accumulates each referrer's commission. */
module PonyReferral {
  import opened Common
  import opened Ledger

  /** Whether `referrer` may be recorded for `user` in `referrers`: both are real addresses,
      nobody refers themselves, and the user has no referrer yet (the first write wins). */
  predicate Attributable(referrers: map<Address, Address>, user: Address, referrer: Address)
  {
    user != ZERO && referrer != ZERO && user != referrer && user !in referrers
  }

  /** The referrer table after a referral is offered: recorded if attributable, otherwise
      ignored without failing. */
  function Attribute(referrers: map<Address, Address>, user: Address, referrer: Address)
    : (m: map<Address, Address>)
    ensures Attributable(referrers, user, referrer) ==>
              m.Keys == referrers.Keys + {user} && m[user] == referrer
    ensures !Attributable(referrers, user, referrer) ==> m == referrers
    ensures forall u :: u in referrers ==> u in m && m[u] == referrers[u]
  {
    if Attributable(referrers, user, referrer) then referrers[user := referrer] else referrers
  }

  /** A table in which nobody is referred by the zero address or by themselves, and the zero
      address is referred by nobody. */
  ghost predicate WellFormed(referrers: map<Address, Address>)
  {
    ZERO !in referrers && forall u :: u in referrers ==> referrers[u] != ZERO && referrers[u] != u
  }

  /** The users attributed to `r`. */
  ghost function Referees(referrers: map<Address, Address>, r: Address): set<Address>
  {
    set u | u in referrers && referrers[u] == r
  }

  /** The commission totals after `commission` is credited to `referrer`: a credit to the
      zero address, or of nothing, is ignored. */
  function Accrue(totals: map<Address, nat>, referrer: Address, commission: nat)
    : (t: map<Address, nat>)
    ensures Get(t, referrer) == Get(totals, referrer) + (if referrer == ZERO then 0 else commission)
    ensures forall a :: a != referrer ==> Get(t, a) == Get(totals, a)
  {
    if referrer != ZERO && commission > 0 then Credit(totals, referrer, commission) else totals
  }

  /** Offering a referral keeps the table well formed. */
  lemma AttributePreservesWellFormed(referrers: map<Address, Address>, user: Address,
                                     referrer: Address)
    requires WellFormed(referrers)
    ensures WellFormed(Attribute(referrers, user, referrer))
  {
  }

  /** First write wins: once a user is referred, no later offer changes its referrer, and an
      offer for an already referred user changes nothing at all. */
  lemma AttributeFirstWriteWins(referrers: map<Address, Address>, user: Address,
                                first: Address, second: Address)
    requires Attributable(referrers, user, first)
    ensures Attribute(Attribute(referrers, user, first), user, second)
              == Attribute(referrers, user, first)
    ensures Attribute(Attribute(referrers, user, first), user, second)[user] == first
  {
  }

  /** A recorded referral adds exactly its user to its referrer's referees, and every other
      referrer keeps the referees it had. */
  lemma AttributeReferees(referrers: map<Address, Address>, user: Address,
                            referrer: Address, r: Address)
    requires Attributable(referrers, user, referrer)
    ensures Referees(Attribute(referrers, user, referrer), r)
              == Referees(referrers, r) + (if r == referrer then {user} else {})
    ensures user !in Referees(referrers, r)
  {
  }

  /** Hence a recorded referral raises its referrer's referee count by one and leaves every
      other count as it was. */
  lemma AttributeRefereeCount(referrers: map<Address, Address>, user: Address,
                              referrer: Address, r: Address)
    requires Attributable(referrers, user, referrer)
    ensures |Referees(Attribute(referrers, user, referrer), r)|
              == |Referees(referrers, r)| + (if r == referrer then 1 else 0)
  {
    AttributeReferees(referrers, user, referrer, r);
  }

  /** Commissions accumulate: two credits to the same referrer amount to one credit of
      their sum. */
  lemma AccrueAdds(totals: map<Address, nat>, referrer: Address, a: nat, b: nat)
    ensures forall x :: Get(Accrue(Accrue(totals, referrer, a), referrer, b), x)
              == Get(Accrue(totals, referrer, a + b), x)
  {
  }

  /** Commissions to different referrers may be recorded in either order. */
  lemma AccrueCommutes(totals: map<Address, nat>, r1: Address, c1: nat, r2: Address, c2: nat)
    ensures forall x :: Get(Accrue(Accrue(totals, r1, c1), r2, c2), x)
              == Get(Accrue(Accrue(totals, r2, c2), r1, c1), x)
  {
  }

  class Referral {
    var owner: Address
    var operators: set<Address>
    var referrers: map<Address, Address>
    var referralsCount: map<Address, nat>
    var totalReferralCommissions: map<Address, nat>

    /** The referrer table is well formed, every referrer's count is the number of its
        referees, and the zero address never accrues a commission. */
    ghost predicate Valid()
      reads this
    {
      && WellFormed(referrers)
      && (forall r :: Get(referralsCount, r) == |Referees(referrers, r)|)
      && Get(totalReferralCommissions, ZERO) == 0
    }

    /** Deployment by `deployer`, who becomes the owner; there are no operators yet. */
    constructor (deployer: Address)
      ensures Valid()
      ensures owner == deployer && operators == {}
      ensures referrers == map[] && referralsCount == map[] && totalReferralCommissions == map[]
    {
      owner := deployer;
      operators := {};
      referrers, referralsCount, totalReferralCommissions := map[], map[], map[];
      assert forall r :: Referees(map[], r) == {};
    }

    predicate IsOperator(a: Address)
      reads this
    {
      a in operators
    }

    /** The referrer of `user`, or the zero address if it has none. In a valid registry the
        zero address answers exactly for the users with no referrer. */
    function GetReferrer(user: Address): (r: Address)
      reads this
      ensures user in referrers ==> r == referrers[user]
      ensures Valid() ==> (r == ZERO <==> user !in referrers)
    {
      if user in referrers then referrers[user] else ZERO
    }

    function ReferralsCount(r: Address): nat
      reads this
    {
      Get(referralsCount, r)
    }

    function TotalReferralCommissions(r: Address): nat
      reads this
    {
      Get(totalReferralCommissions, r)
    }

    /** Owner only: grants (`status`) or revokes the operator role of `account`. */
    method UpdateOperator(caller: Address, account: Address, status: bool) returns (r: Outcome)
      requires Valid()
      modifies this`operators
      ensures Valid()
      ensures r == Ok <==> caller == owner
      ensures r != Ok ==> r == Fail(NotOwner) && operators == old(operators)
      ensures r == Ok ==>
                operators == if status then old(operators) + {account} else old(operators) - {account}
    {
      if caller != owner {
        return Fail(NotOwner);
      }
      operators := if status then operators + {account} else operators - {account};
      return Ok;
    }

    /** Operator only: attributes `user` to `referrer` unless either is the zero address, the
        user refers itself or already has a referrer, in which case nothing changes and the
        call still succeeds. A recorded referral raises the referrer's count by one. */
    method RecordReferral(caller: Address, user: Address, referrer: Address) returns (r: Outcome)
      requires Valid()
      modifies this`referrers, this`referralsCount
      ensures Valid()
      ensures r == Ok <==> caller in operators
      ensures r != Ok ==> r == Fail(NotOperator)
      ensures r == Ok ==> referrers == Attribute(old(referrers), user, referrer)
      ensures r == Ok && Attributable(old(referrers), user, referrer) ==>
                referralsCount == old(referralsCount)[referrer := old(ReferralsCount(referrer)) + 1]
      ensures !(r == Ok && Attributable(old(referrers), user, referrer)) ==>
                referrers == old(referrers) && referralsCount == old(referralsCount)
    {
      if caller !in operators {
        return Fail(NotOperator);
      }
      if user != ZERO && referrer != ZERO && user != referrer && GetReferrer(user) == ZERO {
        ghost var before := referrers;
        referrers := referrers[user := referrer];
        referralsCount := referralsCount[referrer := Get(referralsCount, referrer) + 1];
        AttributePreservesWellFormed(before, user, referrer);
        forall x
          ensures Get(referralsCount, x) == |Referees(referrers, x)|
        {
          AttributeRefereeCount(before, user, referrer, x);
        }
      }
      return Ok;
    }

    /** Operator only: adds `commission` to the total of `referrer`; a commission for the
        zero address, or of nothing, changes nothing and the call still succeeds. */
    method RecordReferralCommission(caller: Address, referrer: Address, commission: nat)
      returns (r: Outcome)
      requires Valid()
      modifies this`totalReferralCommissions
      ensures Valid()
      ensures r == Ok <==> caller in operators
      ensures r != Ok ==> r == Fail(NotOperator)
      ensures r == Ok ==>
                totalReferralCommissions == Accrue(old(totalReferralCommissions), referrer, commission)
      ensures r != Ok ==> totalReferralCommissions == old(totalReferralCommissions)
    {
      if caller !in operators {
        return Fail(NotOperator);
      }
      if referrer != ZERO && commission > 0 {
        totalReferralCommissions :=
          Credit(totalReferralCommissions, referrer, commission);
      }
      return Ok;
    }
  }
}
