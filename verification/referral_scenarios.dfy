/** The referral registry's documented behaviour, replayed on a freshly deployed registry
    with accounts alice, bob, carol, referrer, operator and owner. */
module ReferralScenarios {
  import opened Common
  import opened PonyReferral

  const ALICE: Address := 1
  const BOB: Address := 2
  const CAROL: Address := 3
  const REFERRER: Address := 4
  const OPERATOR: Address := 5
  const OWNER: Address := 6

  /** Only the owner manages operators, and a revoked operator can no longer record. */
  method OperatorScenario()
  {
    var reg := new Referral(OWNER);
    assert !reg.IsOperator(OPERATOR);
    var r := reg.RecordReferral(OPERATOR, ALICE, REFERRER);
    assert r == Fail(NotOperator);

    r := reg.UpdateOperator(CAROL, OPERATOR, true);
    assert r == Fail(NotOwner);
    r := reg.UpdateOperator(OWNER, OPERATOR, true);
    assert r == Ok && reg.IsOperator(OPERATOR);

    r := reg.UpdateOperator(OWNER, OPERATOR, false);
    assert r == Ok && !reg.IsOperator(OPERATOR);
    r := reg.RecordReferral(OPERATOR, ALICE, REFERRER);
    assert r == Fail(NotOperator);
  }

  /** Zero addresses and self-referral are ignored, the first referrer of a user sticks, and
      each new referee raises its referrer's count. */
  method RecordReferralScenario()
  {
    var reg := new Referral(OWNER);
    var r := reg.UpdateOperator(OWNER, OPERATOR, true);
    assert r == Ok && reg.IsOperator(OPERATOR);

    r := reg.RecordReferral(OPERATOR, ZERO, REFERRER);
    r := reg.RecordReferral(OPERATOR, ALICE, ZERO);
    r := reg.RecordReferral(OPERATOR, ZERO, ZERO);
    r := reg.RecordReferral(OPERATOR, ALICE, ALICE);
    assert reg.GetReferrer(ALICE) == ZERO;
    assert reg.ReferralsCount(REFERRER) == 0;

    r := reg.RecordReferral(OPERATOR, ALICE, REFERRER);
    assert reg.GetReferrer(ALICE) == REFERRER;
    assert reg.ReferralsCount(REFERRER) == 1;

    assert reg.ReferralsCount(BOB) == 0;
    r := reg.RecordReferral(OPERATOR, ALICE, BOB);
    assert reg.ReferralsCount(BOB) == 0;
    assert reg.GetReferrer(ALICE) == REFERRER;

    r := reg.RecordReferral(OPERATOR, CAROL, REFERRER);
    assert reg.GetReferrer(CAROL) == REFERRER;
    assert reg.ReferralsCount(REFERRER) == 2;
  }

  /** Commissions accumulate per referrer, a zero commission changes nothing, and the zero
      address never accrues anything. */
  method CommissionScenario()
  {
    var reg := new Referral(OWNER);
    assert reg.TotalReferralCommissions(REFERRER) == 0;

    var r := reg.RecordReferralCommission(OPERATOR, REFERRER, 1);
    assert r == Fail(NotOperator);
    r := reg.UpdateOperator(OWNER, OPERATOR, true);
    assert reg.IsOperator(OPERATOR);

    r := reg.RecordReferralCommission(OPERATOR, REFERRER, 1);
    assert reg.TotalReferralCommissions(REFERRER) == 1;
    r := reg.RecordReferralCommission(OPERATOR, REFERRER, 0);
    assert reg.TotalReferralCommissions(REFERRER) == 1;
    r := reg.RecordReferralCommission(OPERATOR, REFERRER, 111);
    assert reg.TotalReferralCommissions(REFERRER) == 112;

    r := reg.RecordReferralCommission(OPERATOR, ZERO, 100);
    assert reg.TotalReferralCommissions(ZERO) == 0;
  }
}
