/**
 * The unit test's scenarios replayed against the model: the deployment of its
 * beforeEach (scale 1e11, ratios 9000/1000, duration 10, incentive 100, discount
 * and buffer 100, mint cap 10 * scale, oracle price 500), then its purchases,
 * allocations and settings, with the values the test expects.
 */
module Scenarios {
  import opened FixedPoint
  import opened Errors
  import opened Pricing
  import opened Splitter
  import opened Incentive
  import opened BondingCurve

  const USER: Address := 1
  const SECOND_USER: Address := 2
  const KEEPER: Address := 3
  const DEPOSIT1: Address := 11
  const DEPOSIT2: Address := 12

  const SCALE: nat := 100_000_000_000

  /** The curve of the test's beforeEach, deployed at time `now`. */
  method Deploy(now: nat) returns (c: Curve)
    ensures fresh(c) && c.Valid()
    ensures c.scale == SCALE && c.discount == 100 && c.buffer == 100 && c.mintCap == 10 * SCALE
    ensures c.pcvDeposits == [DEPOSIT1, DEPOSIT2] && c.ratios == [9000, 1000]
    ensures c.duration == 10 && c.incentiveAmount == 100 && c.lastPaid == now
    ensures c.totalPurchased == 0 && c.balance == 0 && !c.paused
    ensures c.fei == map[] && c.deposited == map[] && c.events == []
  {
    assert Sum([9000, 1000]) == 10_000 by {
      assert [9000, 1000][..1] == [9000];
    }
    c := new Curve(SCALE, [DEPOSIT1, DEPOSIT2], [9000, 1000], 10, 100, 100, 100, 10 * SCALE, now);
  }

  /** The oracle of the test: `price` FEI per reserve token, valid. */
  function Oracle(price: nat): OracleReading {
    OracleReading(price * BASE, true)
  }

  /** getCurrentPrice() at discount 100, buffer 100 and buffer 500. */
  lemma MultiplierVectors()
    ensures DiscountMultiplier(100) == 1_010_101_010_101_010_101
    ensures BufferMultiplier(100) == 990_099_009_900_990_099
    ensures BufferMultiplier(500) == 952_380_952_380_952_380
  {
  }

  /** 'Pre Scale': one purchase of 50,000,000 at oracle price 500, below scale. */
  method PreScale() returns (c: Curve)
    ensures fresh(c) && c.Valid()
    ensures c.scale == SCALE && c.discount == 100 && c.buffer == 100 && c.mintCap == 10 * SCALE && !c.paused
    ensures c.totalPurchased == 25_252_525_252 && c.balance == 50_000_000
    ensures BalanceOf(c.fei, USER) == 25_252_525_252 && BalanceOf(c.fei, SECOND_USER) == 0
    ensures c.events == [Event.Purchase(USER, 50_000_000, 25_252_525_252)]
  {
    c := Deploy(0);
    MultiplierVectors();
    assert c.CurrentPriceNow() == 1_010_101_010_101_010_101;
    assert !c.IsAtScale();
    assert OracleValue(500 * BASE, 50_000_000) == 25_000_000_000;
    assert c.AmountOutNow(Oracle(500), 50_000_000) == Ok(25_252_525_252);
    var r := c.Purchase(USER, 50_000_000, Oracle(500));
    assert r == Ok(25_252_525_252);
    assert !c.IsAtScale() && c.CurrentPriceNow() == 1_010_101_010_101_010_101;
  }

  /** 'Second Purchase': the same purchase again, to the same account. */
  method SecondPurchase() {
    var c := PreScale();
    MultiplierVectors();
    assert OracleValue(500 * BASE, 50_000_000) == 25_000_000_000;
    assert c.AmountOutNow(Oracle(500), 50_000_000) == Ok(25_252_525_252);
    var r := c.Purchase(USER, 50_000_000, Oracle(500));
    assert r == Ok(25_252_525_252);
    assert c.events[|c.events| - 1] == Event.Purchase(USER, 50_000_000, 25_252_525_252);
    assert BalanceOf(c.fei, USER) == 50_505_050_504;
    assert c.totalPurchased == 50_505_050_504;
    assert !c.IsAtScale() && c.CurrentPriceNow() == 1_010_101_010_101_010_101;
    assert c.balance == 100_000_000;
  }

  /** 'Purchase To': the same purchase again, minted to another account. */
  method PurchaseTo() {
    var c := PreScale();
    MultiplierVectors();
    assert OracleValue(500 * BASE, 50_000_000) == 25_000_000_000;
    assert c.AmountOutNow(Oracle(500), 50_000_000) == Ok(25_252_525_252);
    var r := c.Purchase(SECOND_USER, 50_000_000, Oracle(500));
    assert r == Ok(25_252_525_252);
    assert c.events[1] == Event.Purchase(SECOND_USER, 50_000_000, 25_252_525_252);
    assert BalanceOf(c.fei, USER) == 25_252_525_252 && BalanceOf(c.fei, SECOND_USER) == 25_252_525_252;
    assert c.totalPurchased == 50_505_050_504;
    assert !c.IsAtScale() && c.CurrentPriceNow() == 1_010_101_010_101_010_101;
    assert c.balance == 100_000_000;
  }

  /** 'Oracle Price Change' below scale: the price falls to 400, the multiplier does not change. */
  method PreScaleOracleChange() {
    var c := PreScale();
    MultiplierVectors();
    assert OracleValue(400 * BASE, 50_000_000) == 20_000_000_000;
    assert c.AmountOutNow(Oracle(400), 50_000_000) == Ok(20_202_020_202);
    var r := c.Purchase(USER, 50_000_000, Oracle(400));
    assert r == Ok(20_202_020_202);
    assert c.events[|c.events| - 1] == Event.Purchase(USER, 50_000_000, 20_202_020_202);
    assert BalanceOf(c.fei, USER) == 45_454_545_454;
    assert c.totalPurchased == 45_454_545_454;
    assert !c.IsAtScale() && c.CurrentPriceNow() == 1_010_101_010_101_010_101;
    assert c.balance == 100_000_000;
  }

  /** 'Paused' and 'Invalid Oracle': purchase reverts and nothing changes; allocate reverts while paused. */
  method Rejections() {
    var c := Deploy(0);
    var r := c.Purchase(USER, 50_000_000, OracleReading(500 * BASE, false));
    assert r == Err(InvalidOracle) && c.totalPurchased == 0 && c.balance == 0;
    var p := c.Pause(true);
    assert p == Pass && c.paused;
    r := c.Purchase(USER, 50_000_000, Oracle(500));
    assert r == Err(Paused) && c.totalPurchased == 0 && c.balance == 0;
    var a := c.AllocatePCV(KEEPER, 10);
    assert a == Err(Paused);
    p := c.Pause(false);
    assert p == Fail(NotGuardianOrGovernor) && c.paused;
    p := c.Unpause(true);
    assert p == Pass && !c.paused;
  }

  /** 'Exceeding cap': 4,000,000,000 in would mint more than ten times scale. */
  method ExceedingCap() {
    var c := Deploy(0);
    assert OracleValue(500 * BASE, 4_000_000_000) == 2_000_000_000_000;
    MultiplierVectors();
    var r := c.Purchase(USER, 4_000_000_000, Oracle(500));
    assert r == Err(ExceedsMintCap);
    assert c.totalPurchased == 0 && c.balance == 0;
  }

  /** 'Crossing Scale': 400,000,000 at oracle price 500 buys through scale in one purchase. */
  method CrossScale() returns (c: Curve)
    ensures fresh(c) && c.Valid()
    ensures c.scale == SCALE && c.discount == 100 && c.buffer == 100 && c.mintCap == 10 * SCALE && !c.paused
    ensures c.totalPurchased == 200_020_002_000 && c.balance == 400_000_000
    ensures BalanceOf(c.fei, USER) == 200_020_002_000
  {
    c := Deploy(0);
    MultiplierVectors();
    assert OracleValue(500 * BASE, 400_000_000) == 200_000_000_000;
    assert c.AmountOutNow(Oracle(500), 400_000_000) == Ok(200_020_002_000);
    var r := c.Purchase(USER, 400_000_000, Oracle(500));
    assert r == Ok(200_020_002_000);
    assert c.events == [Event.Purchase(USER, 400_000_000, 200_020_002_000)];
  }

  /** The state 'Crossing Scale' checks: at scale, priced at the buffer. */
  method CrossingScale() {
    var c := CrossScale();
    MultiplierVectors();
    assert c.IsAtScale() && c.CurrentPriceNow() == 990_099_009_900_990_099;
  }

  /** 'Post Scale' and its 'reset': a second purchase at the buffer, then reset. */
  method PostScale() {
    var c := CrossScale();
    MultiplierVectors();
    assert OracleValue(500 * BASE, 400_000_000) == 200_000_000_000;
    assert c.AmountOutNow(Oracle(500), 400_000_000) == Ok(198_019_801_980);
    var r := c.Purchase(USER, 400_000_000, Oracle(500));
    assert r == Ok(198_019_801_980);
    assert c.events[|c.events| - 1] == Event.Purchase(USER, 400_000_000, 198_019_801_980);
    assert BalanceOf(c.fei, USER) == 398_039_803_980;
    assert c.totalPurchased == 398_039_803_980;
    assert c.IsAtScale() && c.CurrentPriceNow() == 990_099_009_900_990_099;
    assert c.balance == 800_000_000;
    var o := c.ResetCurve(true);
    assert o == Pass && c.totalPurchased == 0 && !c.IsAtScale();
    assert c.events[|c.events| - 1] == Event.Reset;
  }

  /** The purchase of 'Buffer Change', priced at scale with a 5% buffer. */
  lemma BufferChangeVector()
    ensures AmountOut(500 * BASE, 400_000_000, 200_020_002_000, SCALE, 100, 500) == 190_476_190_476
  {
    MultiplierVectors();
    assert OracleValue(500 * BASE, 400_000_000) == 200_000_000_000;
    assert AtScale(200_020_002_000, SCALE);
  }

  /** 'Buffer Change': after crossing, the buffer becomes 500 and the next purchase uses it. */
  method BufferChange() {
    var c := CrossScale();
    var o := c.SetBuffer(500, true);
    assert o == Pass;
    BufferChangeVector();
    assert c.AmountOutNow(Oracle(500), 400_000_000) == Ok(190_476_190_476);
    MultiplierVectors();
    var r := c.Purchase(USER, 400_000_000, Oracle(500));
    assert r == Ok(190_476_190_476);
    assert c.events[|c.events| - 1] == Event.Purchase(USER, 400_000_000, 190_476_190_476);
    assert BalanceOf(c.fei, USER) == 390_496_192_476;
    assert c.totalPurchased == 390_496_192_476;
    assert c.IsAtScale() && c.CurrentPriceNow() == 952_380_952_380_952_380;
    assert c.balance == 800_000_000;
  }

  /** 'Oracle Price Change' after crossing: the price rises to 600. */
  method PostScaleOracleChange() {
    var c := CrossScale();
    MultiplierVectors();
    assert OracleValue(600 * BASE, 400_000_000) == 240_000_000_000;
    assert c.AmountOutNow(Oracle(600), 400_000_000) == Ok(237_623_762_376);
    var r := c.Purchase(USER, 400_000_000, Oracle(600));
    assert r == Ok(237_623_762_376);
    assert c.events[|c.events| - 1] == Event.Purchase(USER, 400_000_000, 237_623_762_376);
    assert BalanceOf(c.fei, USER) == 437_643_764_376;
    assert c.totalPurchased == 437_643_764_376;
    assert c.IsAtScale() && c.CurrentPriceNow() == 990_099_009_900_990_099;
    assert c.balance == 800_000_000;
  }

  /** Allocate pays each of the two deposits its own share. */
  lemma PaysBothDeposits(ledger: map<Address, nat>, x: nat, y: nat)
    ensures BalanceOf(CreditAll(ledger, [DEPOSIT1, DEPOSIT2], [x, y]), DEPOSIT1) == BalanceOf(ledger, DEPOSIT1) + x
    ensures BalanceOf(CreditAll(ledger, [DEPOSIT1, DEPOSIT2], [x, y]), DEPOSIT2) == BalanceOf(ledger, DEPOSIT2) + y
  {
    CreditAllDistinct(ledger, [DEPOSIT1, DEPOSIT2], [x, y], 0);
    CreditAllDistinct(ledger, [DEPOSIT1, DEPOSIT2], [x, y], 1);
  }

  /** The second purchase of 10,000,000 of the allocation scenarios, still below scale. */
  lemma RepeatPurchaseVector()
    ensures AmountOut(500 * BASE, 10_000_000, 5_050_505_050, SCALE, 100, 100) == 5_050_505_050
  {
    MultiplierVectors();
    assert OracleValue(500 * BASE, 10_000_000) == 5_000_000_000;
    assert !Crosses(5_000_000_000, 5_050_505_050, SCALE);
  }

  /** 'Allocate / With Purchase': after the timer has run, 10,000,000 held is split 9:1 and the keeper is paid. */
  method AllocateWithPurchase() returns (c: Curve)
    ensures fresh(c) && c.Valid()
    ensures c.pcvDeposits == [DEPOSIT1, DEPOSIT2] && c.ratios == [9000, 1000]
    ensures c.scale == SCALE && c.discount == 100 && c.buffer == 100 && c.mintCap == 10 * SCALE
    ensures c.duration == 10 && c.incentiveAmount == 100 && !c.paused
    ensures c.balance == 0 && c.lastPaid == 10 && c.totalPurchased == 5_050_505_050
    ensures BalanceOf(c.deposited, DEPOSIT1) == 9_000_000 && BalanceOf(c.deposited, DEPOSIT2) == 1_000_000
    ensures BalanceOf(c.fei, KEEPER) == 100
  {
    c := Deploy(0);
    var a := c.AllocatePCV(KEEPER, 10);
    assert a == Err(NotEnoughPCV);
    MultiplierVectors();
    assert OracleValue(500 * BASE, 10_000_000) == 5_000_000_000;
    var r := c.Purchase(USER, 10_000_000, Oracle(500));
    assert r == Ok(5_050_505_050);
    assert Shares(10_000_000, [9000, 1000]) == [9_000_000, 1_000_000];
    PaysBothDeposits(c.deposited, 9_000_000, 1_000_000);
    a := c.AllocatePCV(KEEPER, 10);
    assert a == Ok(10_000_000);
    assert c.events[|c.events| - 1] == Event.Allocate(KEEPER, 10_000_000);
  }

  /** 'Second Allocate / No Purchase': the first allocate drained the balance. */
  method SecondAllocateNoPurchase() {
    var c := AllocateWithPurchase();
    assert Shares(0, [9000, 1000]) == [0, 0];
    var a := c.AllocatePCV(KEEPER, 10);
    assert a == Err(NotEnoughPCV);
  }

  /** 'With Purchase Before Window': split again, no incentive. */
  method AllocateBeforeWindow() {
    var c := AllocateWithPurchase();
    MultiplierVectors();
    assert OracleValue(500 * BASE, 10_000_000) == 5_000_000_000;
    RepeatPurchaseVector();
    var r := c.Purchase(USER, 10_000_000, Oracle(500));
    assert r == Ok(5_050_505_050) && c.balance == 10_000_000;
    assert Shares(10_000_000, [9000, 1000]) == [9_000_000, 1_000_000];
    PaysBothDeposits(c.deposited, 9_000_000, 1_000_000);
    var a := c.AllocatePCV(KEEPER, 15);
    assert a == Ok(10_000_000) && c.balance == 0;
    assert c.events[|c.events| - 1] == Event.Allocate(KEEPER, 10_000_000);
    assert BalanceOf(c.deposited, DEPOSIT1) == 18_000_000 && BalanceOf(c.deposited, DEPOSIT2) == 2_000_000;
    assert BalanceOf(c.fei, KEEPER) == 100 && c.lastPaid == 10;
  }

  /** 'With Purchase After Window': split again and the keeper is paid again. */
  method AllocateAfterWindow() {
    var c := AllocateWithPurchase();
    MultiplierVectors();
    assert OracleValue(500 * BASE, 10_000_000) == 5_000_000_000;
    RepeatPurchaseVector();
    var r := c.Purchase(USER, 10_000_000, Oracle(500));
    assert r == Ok(5_050_505_050) && c.balance == 10_000_000;
    assert Shares(10_000_000, [9000, 1000]) == [9_000_000, 1_000_000];
    PaysBothDeposits(c.deposited, 9_000_000, 1_000_000);
    var a := c.AllocatePCV(KEEPER, 20);
    assert a == Ok(10_000_000) && c.balance == 0;
    assert c.events[|c.events| - 1] == Event.Allocate(KEEPER, 10_000_000);
    assert BalanceOf(c.deposited, DEPOSIT1) == 18_000_000 && BalanceOf(c.deposited, DEPOSIT2) == 2_000_000;
    assert BalanceOf(c.fei, KEEPER) == 200 && c.lastPaid == 20;
  }

  /** 'Updated Allocation': the table becomes 5000 / 5000 and the next split follows it. */
  method AllocateUpdatedTable() {
    var c := AllocateWithPurchase();
    assert Sum([5000, 5000]) == 10_000 by {
      assert [5000, 5000][..1] == [5000];
    }
    var o := c.SetAllocation([DEPOSIT1, DEPOSIT2], [5000, 5000], true);
    assert o == Pass;
    MultiplierVectors();
    assert OracleValue(500 * BASE, 10_000_000) == 5_000_000_000;
    RepeatPurchaseVector();
    var r := c.Purchase(USER, 10_000_000, Oracle(500));
    assert r == Ok(5_050_505_050) && c.balance == 10_000_000;
    assert Shares(10_000_000, [5000, 5000]) == [5_000_000, 5_000_000];
    PaysBothDeposits(c.deposited, 5_000_000, 5_000_000);
    var a := c.AllocatePCV(KEEPER, 20);
    assert a == Ok(10_000_000) && c.balance == 0;
    assert c.events[|c.events| - 1] == Event.Allocate(KEEPER, 10_000_000);
    assert BalanceOf(c.deposited, DEPOSIT1) == 14_000_000 && BalanceOf(c.deposited, DEPOSIT2) == 6_000_000;
    assert BalanceOf(c.fei, KEEPER) == 200;
  }

  /** 'Purchase too low': one reserve token held is not enough to allocate. */
  method PurchaseTooLow() {
    var c := Deploy(0);
    var r := c.Purchase(USER, 1, Oracle(500));
    assert r.Ok? && c.balance == 1;
    assert Shares(1, [9000, 1000]) == [0, 0];
    var a := c.AllocatePCV(KEEPER, 10);
    assert a == Err(NotEnoughPCV) && c.balance == 1;
  }

  /** 'PCV Allocation': checkAllocation, then setAllocation and getAllocation. */
  method AllocationSettings() {
    assert CheckAllocation([DEPOSIT1], [9000, 1000]) == Fail(LengthMismatch);
    assert Sum([9000, 2000]) == 11_000 by {
      assert [9000, 2000][..1] == [9000];
    }
    assert CheckAllocation([DEPOSIT1, DEPOSIT2], [9000, 2000]) == Fail(RatiosNotFull);
    assert Sum([5000, 5000]) == 10_000 by {
      assert [5000, 5000][..1] == [5000];
    }
    assert CheckAllocation([DEPOSIT1, DEPOSIT2], [5000, 5000]) == Pass;

    var c := Deploy(0);
    assert Sum([10_000]) == 10_000;
    var o := c.SetAllocation([DEPOSIT1], [10_000], false);
    assert o == Fail(NotGovernor);
    o := c.SetAllocation([DEPOSIT1], [10_000], true);
    assert o == Pass && c.events == [AllocationUpdate([DEPOSIT1, DEPOSIT2], [DEPOSIT1])];
    var deposits, weights := c.GetAllocation();
    assert deposits == [DEPOSIT1] && weights == [10_000];
  }

  /** 'Scale': governor only; the update is logged. */
  method ScaleSetting() {
    var c := Deploy(0);
    var o := c.SetScale(100, false);
    assert o == Fail(NotGovernor) && c.scale == SCALE;
    o := c.SetScale(100, true);
    assert o == Pass && c.scale == 100;
    assert c.events[|c.events| - 1] == ScaleUpdate(SCALE, 100);
  }

  /** 'Buffer': governor only, below 10000; the update is logged. */
  method BufferSetting() {
    var c := Deploy(0);
    var o := c.SetBuffer(10_000, true);
    assert o == Fail(InvalidBasisPoints) && c.buffer == 100;
    o := c.SetBuffer(1000, false);
    assert o == Fail(NotGovernor) && c.buffer == 100;
    o := c.SetBuffer(1000, true);
    assert o == Pass && c.buffer == 1000;
    assert c.events[|c.events| - 1] == BufferUpdate(100, 1000);
  }

  /** 'Discount': governor only, below 10000; the update is logged. */
  method DiscountSetting() {
    var c := Deploy(0);
    var o := c.SetDiscount(10_000, true);
    assert o == Fail(InvalidBasisPoints) && c.discount == 100;
    o := c.SetDiscount(1000, false);
    assert o == Fail(NotGovernor) && c.discount == 100;
    o := c.SetDiscount(1000, true);
    assert o == Pass && c.discount == 1000;
    assert c.events[|c.events| - 1] == DiscountUpdate(100, 1000);
  }

  /** 'Incentive Amount': governor only; the update is logged. */
  method IncentiveAmountSetting() {
    var c := Deploy(0);
    var o := c.SetIncentiveAmount(10, false);
    assert o == Fail(NotGovernor) && c.incentiveAmount == 100;
    o := c.SetIncentiveAmount(10, true);
    assert o == Pass && c.incentiveAmount == 10;
    assert c.events[|c.events| - 1] == IncentiveUpdate(100, 10);
  }

  /** 'Incentive Frequency': governor only; the update is logged. */
  method IncentiveFrequencySetting() {
    var c := Deploy(0);
    var o := c.SetIncentiveFrequency(70, false);
    assert o == Fail(NotGovernor) && c.duration == 10;
    o := c.SetIncentiveFrequency(70, true);
    assert o == Pass && c.duration == 70;
    assert c.events[|c.events| - 1] == DurationUpdate(10, 70);
  }

  /** 'Pausable': only a guardian or governor pauses and unpauses. */
  method Pausing() {
    var c := Deploy(0);
    assert !c.paused;
    var p := c.Pause(false);
    assert p == Fail(NotGuardianOrGovernor) && !c.paused;
    p := c.Pause(true);
    assert p == Pass && c.paused;
    p := c.Unpause(false);
    assert p == Fail(NotGuardianOrGovernor) && c.paused;
    p := c.Unpause(true);
    assert p == Pass && !c.paused;
  }
}
