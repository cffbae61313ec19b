/**
 * The BondingCurve contract as a state machine: it sells FEI for a reserve token
 * at the curve's price, holds the reserve tokens it receives, and allocate sends
 * them to the PCV deposits by ratio, paying the caller a timed incentive.
 *
 * The oracle's answer and the block time are parameters; FEI minted by the curve
 * and reserve tokens it sends are kept in ghost ledgers; emitted events in a ghost log.
 */
module BondingCurve {
  import opened FixedPoint
  import opened Errors
  import opened Pricing
  import opened Splitter
  import opened Incentive

  /** The events the contract emits. */
  datatype Event =
    | Purchase(to: Address, amountIn: nat, amountOut: nat)
    | Reset
    | Allocate(caller: Address, amount: nat)
    | AllocationUpdate(oldPCVDeposits: seq<Address>, newPCVDeposits: seq<Address>)
    | ScaleUpdate(oldScale: nat, newScale: nat)
    | BufferUpdate(oldBuffer: nat, newBuffer: nat)
    | DiscountUpdate(oldDiscount: nat, newDiscount: nat)
    | MintCapUpdate(oldMintCap: nat, newMintCap: nat)
    | IncentiveUpdate(oldIncentiveAmount: nat, newIncentiveAmount: nat)
    | DurationUpdate(oldDuration: nat, newDuration: nat)

  class Curve {
    // Pricing settings (governor-controlled)
    var scale: nat
    var buffer: nat
    var discount: nat
    var mintCap: nat
    // Pricing state
    var totalPurchased: nat
    /** balance(): reserve tokens held by the curve, waiting for allocate. */
    var balance: nat
    var paused: bool
    // PCV splitter table
    var pcvDeposits: seq<Address>
    var ratios: seq<nat>
    // Keeper incentive timer
    var lastPaid: nat
    var duration: nat
    var incentiveAmount: nat

    /** FEI the curve has minted, per account. */
    ghost var fei: map<Address, nat>
    /** Reserve tokens the curve has sent, per PCV deposit. */
    ghost var deposited: map<Address, nat>
    /** Events emitted so far, oldest first. */
    ghost var events: seq<Event>

    /** The invariant every setter keeps: basis points below GRANULARITY, a complete allocation table. */
    ghost predicate Valid()
      reads this
    {
      && ValidBasisPoints(buffer)
      && ValidBasisPoints(discount)
      && ValidAllocation(pcvDeposits, ratios)
    }

    /** atScale() */
    predicate IsAtScale()
      reads this
    {
      AtScale(totalPurchased, scale)
    }

    /** The governor-controlled settings other than the allocation table are as before. */
    twostate predicate SettingsUnchanged()
      reads this
    {
      && scale == old(scale) && buffer == old(buffer) && discount == old(discount) && mintCap == old(mintCap)
      && paused == old(paused) && duration == old(duration) && incentiveAmount == old(incentiveAmount)
      && pcvDeposits == old(pcvDeposits) && ratios == old(ratios)
    }

    /**
     * Deployment at time `now`. The table must pass checkAllocation and the buffer and
     * discount must lie below GRANULARITY; a deployment that breaks either is not modelled.
     * The timer starts at deployment.
     */
    constructor (scale: nat, pcvDeposits: seq<Address>, ratios: seq<nat>, duration: nat, incentiveAmount: nat,
                 discount: nat, buffer: nat, mintCap: nat, now: nat)
      requires ValidAllocation(pcvDeposits, ratios)
      requires ValidBasisPoints(discount) && ValidBasisPoints(buffer)
      ensures Valid()
      ensures this.scale == scale && this.buffer == buffer && this.discount == discount && this.mintCap == mintCap
      ensures this.pcvDeposits == pcvDeposits && this.ratios == ratios
      ensures this.duration == duration && this.incentiveAmount == incentiveAmount && lastPaid == now
      ensures totalPurchased == 0 && balance == 0 && !paused
      ensures fei == map[] && deposited == map[] && events == []
    {
      this.scale, this.buffer, this.discount, this.mintCap := scale, buffer, discount, mintCap;
      this.pcvDeposits, this.ratios := pcvDeposits, ratios;
      this.duration, this.incentiveAmount, lastPaid := duration, incentiveAmount, now;
      totalPurchased, balance, paused := 0, 0, false;
      fei, deposited, events := map[], map[], [];
    }

    /** getCurrentPrice() */
    function CurrentPriceNow(): nat
      reads this
      requires Valid()
    {
      CurrentPrice(totalPurchased, scale, discount, buffer)
    }

    /** getAmountOut(amountIn) against the oracle's current answer. */
    function AmountOutNow(oracle: OracleReading, amountIn: nat): Result<nat>
      reads this
      requires Valid()
    {
      GetAmountOut(oracle, amountIn, totalPurchased, scale, discount, buffer)
    }

    /** getAllocation(): the current table, deposits and ratios in order. */
    method GetAllocation() returns (deposits: seq<Address>, weights: seq<nat>)
      requires Valid()
      ensures deposits == pcvDeposits && weights == ratios
      ensures |deposits| == |weights| && Sum(weights) == GRANULARITY
    {
      deposits, weights := pcvDeposits, ratios;
    }

    /**
     * purchase(to, amountIn): takes amountIn reserve tokens into the held balance, mints
     * getAmountOut(amountIn) FEI to `to` and adds it to totalPurchased. Reverts when paused,
     * when the oracle is invalid, or when totalPurchased would pass the mint cap.
     */
    method Purchase(to: Address, amountIn: nat, oracle: OracleReading) returns (r: Result<nat>)
      requires Valid()
      modifies this
      ensures Valid() && SettingsUnchanged()
      ensures r == PurchaseQuote(old(paused), oracle, amountIn, old(totalPurchased), scale, discount, buffer, mintCap)
      ensures r.Ok? ==>
        && totalPurchased == old(totalPurchased) + r.value
        && totalPurchased <= mintCap
        && balance == old(balance) + amountIn
        && fei == Credit(old(fei), to, r.value)
        && events == old(events) + [Event.Purchase(to, amountIn, r.value)]
      ensures r.Err? ==> totalPurchased == old(totalPurchased) && balance == old(balance) && fei == old(fei) && events == old(events)
      ensures deposited == old(deposited) && lastPaid == old(lastPaid)
    {
      if paused {
        return Err(Paused);
      }
      var quote := GetAmountOut(oracle, amountIn, totalPurchased, scale, discount, buffer);
      if quote.Err? {
        return Err(quote.error);
      }
      var amountOut := quote.value;
      if totalPurchased + amountOut > mintCap {
        return Err(ExceedsMintCap);
      }
      balance := balance + amountIn;
      totalPurchased := totalPurchased + amountOut;
      fei := Credit(fei, to, amountOut);
      events := events + [Event.Purchase(to, amountIn, amountOut)];
      r := Ok(amountOut);
    }

    /** reset(): governor only; restarts the pricing regime by zeroing totalPurchased. */
    method ResetCurve(callerIsGovernor: bool) returns (r: Outcome)
      requires Valid()
      modifies this
      ensures Valid() && SettingsUnchanged()
      ensures r == (if callerIsGovernor then Pass else Fail(NotGovernor))
      ensures r.Pass? ==> totalPurchased == 0 && events == old(events) + [Event.Reset]
      ensures r.Pass? && scale > 0 ==> !IsAtScale()
      ensures r.Fail? ==> totalPurchased == old(totalPurchased) && events == old(events)
      ensures balance == old(balance) && fei == old(fei) && deposited == old(deposited) && lastPaid == old(lastPaid)
    {
      if !callerIsGovernor {
        return Fail(NotGovernor);
      }
      totalPurchased := 0;
      events := events + [Event.Reset];
      r := Pass;
    }

    /**
     * allocate(): sends each PCV deposit its ratio of the held balance, and pays the caller
     * the incentive if the timer has run out. Reverts when paused, or when no deposit
     * would receive anything. Reports the whole held balance.
     */
    method AllocatePCV(caller: Address, now: nat) returns (r: Result<nat>)
      requires Valid()
      modifies this
      ensures Valid() && SettingsUnchanged() && totalPurchased == old(totalPurchased)
      ensures r == (if old(paused) then Err(Paused)
                    else if !Disbursable(old(balance), ratios) then Err(NotEnoughPCV)
                    else Ok(old(balance)))
      ensures r.Ok? ==>
        && balance == old(balance) - Sum(Shares(old(balance), ratios))
        && deposited == CreditAll(old(deposited), pcvDeposits, Shares(old(balance), ratios))
        && lastPaid == TimerAfter(old(lastPaid), duration, now)
        && fei == (if IncentiveDue(old(lastPaid), duration, now) then Credit(old(fei), caller, incentiveAmount) else old(fei))
        && events == old(events) + [Event.Allocate(caller, old(balance))]
      ensures r.Err? ==>
        balance == old(balance) && deposited == old(deposited) && lastPaid == old(lastPaid) && fei == old(fei) && events == old(events)
    {
      if paused {
        return Err(Paused);
      }
      var held := balance;
      var shares := Shares(held, ratios);
      if Sum(shares) == 0 {
        return Err(NotEnoughPCV);
      }
      AllocationBounds(held, ratios);
      Distribute(shares);
      if IncentiveDue(lastPaid, duration, now) {
        lastPaid := now;
        fei := Credit(fei, caller, incentiveAmount);
      }
      events := events + [Event.Allocate(caller, held)];
      r := Ok(held);
    }

    /** _allocate(total): transfers shares[i] of the held balance to the i-th PCV deposit, in table order. */
    method Distribute(shares: seq<nat>)
      requires |shares| == |pcvDeposits| && Sum(shares) <= balance
      modifies this`balance, this`deposited
      ensures balance == old(balance) - Sum(shares)
      ensures deposited == CreditAll(old(deposited), pcvDeposits, shares)
    {
      var i := 0;
      while i < |pcvDeposits|
        invariant i <= |pcvDeposits|
        invariant Sum(shares[..i]) <= old(balance)
        invariant balance == old(balance) - Sum(shares[..i])
        invariant deposited == CreditAll(old(deposited), pcvDeposits[..i], shares[..i])
      {
        SumPrefixStep(shares, i);
        SumPrefixAtMost(shares, i + 1);
        CreditAllStep(old(deposited), pcvDeposits, shares, i);
        balance := balance - shares[i];
        deposited := Credit(deposited, pcvDeposits[i], shares[i]);
        i := i + 1;
      }
      assert pcvDeposits[..i] == pcvDeposits && shares[..i] == shares;
    }

    /** setAllocation(deposits, ratios): governor only; replaces the whole table after checkAllocation. */
    method SetAllocation(newDeposits: seq<Address>, newRatios: seq<nat>, callerIsGovernor: bool) returns (r: Outcome)
      requires Valid()
      modifies this`pcvDeposits, this`ratios, this`events
      ensures Valid()
      ensures r == (if !callerIsGovernor then Fail(NotGovernor) else CheckAllocation(newDeposits, newRatios))
      ensures r.Pass? ==>
        && pcvDeposits == newDeposits && ratios == newRatios
        && events == old(events) + [AllocationUpdate(old(pcvDeposits), newDeposits)]
      ensures r.Fail? ==> pcvDeposits == old(pcvDeposits) && ratios == old(ratios) && events == old(events)
    {
      if !callerIsGovernor {
        return Fail(NotGovernor);
      }
      r := CheckAllocation(newDeposits, newRatios);
      if r.Pass? {
        events := events + [AllocationUpdate(pcvDeposits, newDeposits)];
        pcvDeposits, ratios := newDeposits, newRatios;
      }
    }

    /** setScale(newScale): governor only. */
    method SetScale(newScale: nat, callerIsGovernor: bool) returns (r: Outcome)
      requires Valid()
      modifies this`scale, this`events
      ensures Valid()
      ensures r == (if callerIsGovernor then Pass else Fail(NotGovernor))
      ensures r.Pass? ==> scale == newScale && events == old(events) + [ScaleUpdate(old(scale), newScale)]
      ensures r.Fail? ==> scale == old(scale) && events == old(events)
    {
      if !callerIsGovernor {
        return Fail(NotGovernor);
      }
      events := events + [ScaleUpdate(scale, newScale)];
      scale := newScale;
      r := Pass;
    }

    /** setBuffer(newBuffer): governor only; the buffer must stay below GRANULARITY. */
    method SetBuffer(newBuffer: nat, callerIsGovernor: bool) returns (r: Outcome)
      requires Valid()
      modifies this`buffer, this`events
      ensures Valid()
      ensures r == (if !callerIsGovernor then Fail(NotGovernor)
                    else if !ValidBasisPoints(newBuffer) then Fail(InvalidBasisPoints)
                    else Pass)
      ensures r.Pass? ==> buffer == newBuffer && events == old(events) + [BufferUpdate(old(buffer), newBuffer)]
      ensures r.Fail? ==> buffer == old(buffer) && events == old(events)
    {
      if !callerIsGovernor {
        return Fail(NotGovernor);
      }
      if !ValidBasisPoints(newBuffer) {
        return Fail(InvalidBasisPoints);
      }
      events := events + [BufferUpdate(buffer, newBuffer)];
      buffer := newBuffer;
      r := Pass;
    }

    /** setDiscount(newDiscount): governor only; the discount must stay below GRANULARITY. */
    method SetDiscount(newDiscount: nat, callerIsGovernor: bool) returns (r: Outcome)
      requires Valid()
      modifies this`discount, this`events
      ensures Valid()
      ensures r == (if !callerIsGovernor then Fail(NotGovernor)
                    else if !ValidBasisPoints(newDiscount) then Fail(InvalidBasisPoints)
                    else Pass)
      ensures r.Pass? ==> discount == newDiscount && events == old(events) + [DiscountUpdate(old(discount), newDiscount)]
      ensures r.Fail? ==> discount == old(discount) && events == old(events)
    {
      if !callerIsGovernor {
        return Fail(NotGovernor);
      }
      if !ValidBasisPoints(newDiscount) {
        return Fail(InvalidBasisPoints);
      }
      events := events + [DiscountUpdate(discount, newDiscount)];
      discount := newDiscount;
      r := Pass;
    }

    /** setMintCap(newMintCap): governor only. */
    method SetMintCap(newMintCap: nat, callerIsGovernor: bool) returns (r: Outcome)
      requires Valid()
      modifies this`mintCap, this`events
      ensures Valid()
      ensures r == (if callerIsGovernor then Pass else Fail(NotGovernor))
      ensures r.Pass? ==> mintCap == newMintCap && events == old(events) + [MintCapUpdate(old(mintCap), newMintCap)]
      ensures r.Fail? ==> mintCap == old(mintCap) && events == old(events)
    {
      if !callerIsGovernor {
        return Fail(NotGovernor);
      }
      events := events + [MintCapUpdate(mintCap, newMintCap)];
      mintCap := newMintCap;
      r := Pass;
    }

    /** setIncentiveAmount(newIncentiveAmount): governor only. */
    method SetIncentiveAmount(newIncentiveAmount: nat, callerIsGovernor: bool) returns (r: Outcome)
      requires Valid()
      modifies this`incentiveAmount, this`events
      ensures Valid()
      ensures r == (if callerIsGovernor then Pass else Fail(NotGovernor))
      ensures r.Pass? ==>
        && incentiveAmount == newIncentiveAmount
        && events == old(events) + [IncentiveUpdate(old(incentiveAmount), newIncentiveAmount)]
      ensures r.Fail? ==> incentiveAmount == old(incentiveAmount) && events == old(events)
    {
      if !callerIsGovernor {
        return Fail(NotGovernor);
      }
      events := events + [IncentiveUpdate(incentiveAmount, newIncentiveAmount)];
      incentiveAmount := newIncentiveAmount;
      r := Pass;
    }

    /** setIncentiveFrequency(newDuration): governor only; sets the timer's duration. */
    method SetIncentiveFrequency(newDuration: nat, callerIsGovernor: bool) returns (r: Outcome)
      requires Valid()
      modifies this`duration, this`events
      ensures Valid()
      ensures r == (if callerIsGovernor then Pass else Fail(NotGovernor))
      ensures r.Pass? ==> duration == newDuration && events == old(events) + [DurationUpdate(old(duration), newDuration)]
      ensures r.Fail? ==> duration == old(duration) && events == old(events)
    {
      if !callerIsGovernor {
        return Fail(NotGovernor);
      }
      events := events + [DurationUpdate(duration, newDuration)];
      duration := newDuration;
      r := Pass;
    }

    /** pause(): guardian or governor only; only an unpaused curve can be paused. */
    method Pause(callerIsGuardianOrGovernor: bool) returns (r: Outcome)
      requires Valid()
      modifies this`paused
      ensures Valid()
      ensures r == (if !callerIsGuardianOrGovernor then Fail(NotGuardianOrGovernor)
                    else if old(paused) then Fail(Errors.Paused)
                    else Pass)
      ensures paused == (old(paused) || r.Pass?)
    {
      if !callerIsGuardianOrGovernor {
        return Fail(NotGuardianOrGovernor);
      }
      if paused {
        return Fail(Errors.Paused);
      }
      paused := true;
      r := Pass;
    }

    /** unpause(): guardian or governor only; only a paused curve can be unpaused. */
    method Unpause(callerIsGuardianOrGovernor: bool) returns (r: Outcome)
      requires Valid()
      modifies this`paused
      ensures Valid()
      ensures r == (if !callerIsGuardianOrGovernor then Fail(NotGuardianOrGovernor)
                    else if !old(paused) then Fail(NotPaused)
                    else Pass)
      ensures paused == (old(paused) && !r.Pass?)
    {
      if !callerIsGuardianOrGovernor {
        return Fail(NotGuardianOrGovernor);
      }
      if !paused {
        return Fail(NotPaused);
      }
      paused := false;
      r := Pass;
    }
  }
}
