/**
 * The bonding curve's price: a discount below `scale`, a buffer at or above it,
 * and the split of one purchase that crosses `scale`.
 *
 * Amounts of FEI and of the reserve token are whole token units; prices are
 * fixed-point numbers (see FixedPoint). `totalPurchased` and `scale` count FEI.
 */
module Pricing {
  import opened FixedPoint
  import opened Errors

  /** One read of the oracle: the reserve token's price in FEI as a fixed-point number, and its validity flag. */
  datatype OracleReading = OracleReading(price: nat, valid: bool)

  /** The bound every setter of the buffer and of the discount enforces. */
  predicate ValidBasisPoints(bps: nat) {
    bps < GRANULARITY
  }

  /** Price multiplier below scale, GRANULARITY / (GRANULARITY - discount): a buyer gets more FEI than the oracle value. */
  function DiscountMultiplier(discount: nat): (m: nat)
    requires ValidBasisPoints(discount)
    ensures m >= BASE
    ensures m * (GRANULARITY - discount) <= GRANULARITY * BASE < (m + 1) * (GRANULARITY - discount)
  {
    RatioAtLeastOne(GRANULARITY, GRANULARITY - discount);
    Ratio(GRANULARITY, GRANULARITY - discount)
  }

  /** Price multiplier at or above scale, GRANULARITY / (GRANULARITY + buffer): a buyer gets less FEI than the oracle value. */
  function BufferMultiplier(buffer: nat): (m: nat)
    requires ValidBasisPoints(buffer)
    ensures 0 < m <= BASE
    ensures m * (GRANULARITY + buffer) <= GRANULARITY * BASE < (m + 1) * (GRANULARITY + buffer)
  {
    RatioAtMostOne(GRANULARITY, GRANULARITY + buffer);
    Ratio(GRANULARITY, GRANULARITY + buffer)
  }

  /** atScale(): the curve has sold at least `scale` FEI since the last reset. */
  predicate AtScale(totalPurchased: nat, scale: nat) {
    totalPurchased >= scale
  }

  /** getCurrentPrice(): the multiplier of the regime the curve is in; it does not depend on the oracle. */
  function CurrentPrice(totalPurchased: nat, scale: nat, discount: nat, buffer: nat): (p: nat)
    requires ValidBasisPoints(discount) && ValidBasisPoints(buffer)
    ensures AtScale(totalPurchased, scale) ==> p <= BASE
    ensures !AtScale(totalPurchased, scale) ==> p >= BASE
  {
    if AtScale(totalPurchased, scale) then BufferMultiplier(buffer) else DiscountMultiplier(discount)
  }

  /** The FEI value of `amountIn` reserve tokens at the oracle price, before any discount or buffer. */
  function OracleValue(price: nat, amountIn: nat): nat {
    MulTrunc(price, amountIn)
  }

  /** True when a purchase of this oracle value starts below scale and ends beyond it. */
  predicate Crosses(value: nat, totalPurchased: nat, scale: nat) {
    !AtScale(totalPurchased, scale) && value > scale - totalPurchased
  }

  /** The untruncated FEI a purchase of oracle value `value` earns from a curve not yet at scale. */
  function RawBelowScale(a: nat, b: nat, pre: nat, value: nat): nat {
    if value <= pre then a * value else a * pre + b * (value - pre)
  }

  /**
   * getAmountOut(amountIn) for a given oracle price. A purchase that crosses scale
   * is priced in two parts of its oracle value: the part up to `scale - totalPurchased`
   * at the discount multiplier, the rest at the buffer multiplier; both products are
   * added before the one truncation.
   */
  function AmountOut(price: nat, amountIn: nat, totalPurchased: nat, scale: nat, discount: nat, buffer: nat): (r: nat)
    requires ValidBasisPoints(discount) && ValidBasisPoints(buffer)
    ensures MulTrunc(BufferMultiplier(buffer), OracleValue(price, amountIn)) <= r
    ensures r <= MulTrunc(DiscountMultiplier(discount), OracleValue(price, amountIn))
  {
    var value := OracleValue(price, amountIn);
    var a, b := DiscountMultiplier(discount), BufferMultiplier(buffer);
    MulTruncMonotone(b, a, value, value);
    if Crosses(value, totalPurchased, scale) then
      var pre := scale - totalPurchased;
      CrossingRawBetween(a, b, pre, value);
      DivBase(b * value, RawBelowScale(a, b, pre, value));
      DivBase(RawBelowScale(a, b, pre, value), a * value);
      RawBelowScale(a, b, pre, value) / BASE
    else
      MulTrunc(CurrentPrice(totalPurchased, scale, discount, buffer), value)
  }

  /** getAmountOut as the contract answers it: it reverts when the oracle is invalid. */
  function GetAmountOut(oracle: OracleReading, amountIn: nat, totalPurchased: nat, scale: nat, discount: nat, buffer: nat): (r: Result<nat>)
    requires ValidBasisPoints(discount) && ValidBasisPoints(buffer)
    ensures r.Err? <==> !oracle.valid
    ensures r.Err? ==> r.error == InvalidOracle
    ensures r.Ok? ==> r.value == AmountOut(oracle.price, amountIn, totalPurchased, scale, discount, buffer)
  {
    if !oracle.valid then Err(InvalidOracle)
    else Ok(AmountOut(oracle.price, amountIn, totalPurchased, scale, discount, buffer))
  }

  /**
   * What purchase(to, amountIn) decides before it changes anything: the FEI it mints,
   * or why it reverts, checked in the contract's order (pause, oracle, mint cap).
   */
  function PurchaseQuote(paused: bool, oracle: OracleReading, amountIn: nat, totalPurchased: nat,
                         scale: nat, discount: nat, buffer: nat, mintCap: nat): (r: Result<nat>)
    requires ValidBasisPoints(discount) && ValidBasisPoints(buffer)
    ensures r == Err(Paused) <==> paused
    ensures r == Err(InvalidOracle) <==> !paused && !oracle.valid
    ensures r == Err(ExceedsMintCap) <==>
      !paused && oracle.valid && totalPurchased + AmountOut(oracle.price, amountIn, totalPurchased, scale, discount, buffer) > mintCap
    ensures r.Ok? <==>
      !paused && oracle.valid && totalPurchased + AmountOut(oracle.price, amountIn, totalPurchased, scale, discount, buffer) <= mintCap
    ensures r.Ok? ==>
      && r.value == AmountOut(oracle.price, amountIn, totalPurchased, scale, discount, buffer)
      && totalPurchased + r.value <= mintCap
  {
    if paused then Err(Paused)
    else match GetAmountOut(oracle, amountIn, totalPurchased, scale, discount, buffer)
      case Err(e) => Err(e)
      case Ok(out) => if totalPurchased + out > mintCap then Err(ExceedsMintCap) else Ok(out)
  }

  // ---------------------------------------------------------------------------
  // Properties of the curve

  /** The raw (untruncated) crossing price lies between pricing all of it at either multiplier. */
  lemma CrossingRawBetween(a: nat, b: nat, pre: nat, value: nat)
    requires b <= a && pre < value
    ensures b * value <= a * pre + b * (value - pre) <= a * value
  {
    MulLeft(b, a, pre);
    assert b * value == b * pre + b * (value - pre);
    assert a * value == a * pre + a * (value - pre);
    MulLeft(b, a, value - pre);
  }

  /** A purchase that crosses scale leaves the curve at scale. */
  lemma CrossingReachesScale(price: nat, amountIn: nat, totalPurchased: nat, scale: nat, discount: nat, buffer: nat)
    requires ValidBasisPoints(discount) && ValidBasisPoints(buffer)
    requires Crosses(OracleValue(price, amountIn), totalPurchased, scale)
    ensures AtScale(totalPurchased + AmountOut(price, amountIn, totalPurchased, scale, discount, buffer), scale)
  {
    var value := OracleValue(price, amountIn);
    var a, b := DiscountMultiplier(discount), BufferMultiplier(buffer);
    var pre := scale - totalPurchased;
    assert AmountOut(price, amountIn, totalPurchased, scale, discount, buffer) == RawBelowScale(a, b, pre, value) / BASE;
    RawCrossingReachesScale(a, b, pre, value);
  }

  /** Pricing the part up to scale at a multiplier of at least one already mints that part. */
  lemma RawCrossingReachesScale(a: nat, b: nat, pre: nat, value: nat)
    requires a >= BASE && pre < value
    ensures RawBelowScale(a, b, pre, value) / BASE >= pre
  {
    var raw := a * pre + b * (value - pre);
    MulLeft(BASE, a, pre);
    assert BASE * pre <= raw;
    assert (BASE * pre) / BASE == pre;
    DivBase(BASE * pre, raw);
  }

  /**
   * atScale() after a purchase: it holds exactly when the curve was at scale already,
   * when the purchase crossed scale, or when the purchase, priced at the discount,
   * brought totalPurchased up to scale.
   */
  lemma AtScaleAfterPurchase(price: nat, amountIn: nat, totalPurchased: nat, scale: nat, discount: nat, buffer: nat)
    requires ValidBasisPoints(discount) && ValidBasisPoints(buffer)
    ensures var value := OracleValue(price, amountIn);
      AtScale(totalPurchased + AmountOut(price, amountIn, totalPurchased, scale, discount, buffer), scale)
      <==> AtScale(totalPurchased, scale) || Crosses(value, totalPurchased, scale)
           || AtScale(totalPurchased + MulTrunc(DiscountMultiplier(discount), value), scale)
  {
    if Crosses(OracleValue(price, amountIn), totalPurchased, scale) {
      CrossingReachesScale(price, amountIn, totalPurchased, scale, discount, buffer);
    }
  }

  /**
   * While a purchase leaves the curve strictly below scale, getAmountOut is the oracle
   * value times the discount multiplier: it did not cross.
   */
  lemma BelowScaleIsLinear(price: nat, amountIn: nat, totalPurchased: nat, scale: nat, discount: nat, buffer: nat)
    requires ValidBasisPoints(discount) && ValidBasisPoints(buffer)
    requires totalPurchased + AmountOut(price, amountIn, totalPurchased, scale, discount, buffer) < scale
    ensures AmountOut(price, amountIn, totalPurchased, scale, discount, buffer)
            == MulTrunc(DiscountMultiplier(discount), OracleValue(price, amountIn))
  {
    if Crosses(OracleValue(price, amountIn), totalPurchased, scale) {
      CrossingReachesScale(price, amountIn, totalPurchased, scale, discount, buffer);
      assert false;
    }
  }

  /** A purchase that does not cross scale is priced at getCurrentPrice(). */
  lemma SingleRegimeAtCurrentPrice(price: nat, amountIn: nat, totalPurchased: nat, scale: nat, discount: nat, buffer: nat)
    requires ValidBasisPoints(discount) && ValidBasisPoints(buffer)
    requires !Crosses(OracleValue(price, amountIn), totalPurchased, scale)
    ensures AmountOut(price, amountIn, totalPurchased, scale, discount, buffer)
            == MulTrunc(CurrentPrice(totalPurchased, scale, discount, buffer), OracleValue(price, amountIn))
    ensures AtScale(totalPurchased, scale) ==>
      AmountOut(price, amountIn, totalPurchased, scale, discount, buffer) == MulTrunc(BufferMultiplier(buffer), OracleValue(price, amountIn))
    ensures !AtScale(totalPurchased, scale) ==>
      AmountOut(price, amountIn, totalPurchased, scale, discount, buffer) == MulTrunc(DiscountMultiplier(discount), OracleValue(price, amountIn))
  {
  }

  lemma RawBelowScaleMonotone(a: nat, b: nat, pre: nat, v1: nat, v2: nat)
    requires b <= a && v1 <= v2
    ensures RawBelowScale(a, b, pre, v1) <= RawBelowScale(a, b, pre, v2)
  {
    if v2 <= pre {
      MulLeft(v1, v2, a);
    } else if v1 <= pre {
      MulLeft(v1, pre, a);
    } else {
      MulLeft(v1 - pre, v2 - pre, b);
    }
  }

  /** A larger purchase, or the same purchase at a higher oracle price, never earns less FEI, including across scale. */
  lemma AmountOutMonotone(p1: nat, p2: nat, in1: nat, in2: nat, totalPurchased: nat, scale: nat, discount: nat, buffer: nat)
    requires ValidBasisPoints(discount) && ValidBasisPoints(buffer)
    requires p1 <= p2 && in1 <= in2
    ensures AmountOut(p1, in1, totalPurchased, scale, discount, buffer)
            <= AmountOut(p2, in2, totalPurchased, scale, discount, buffer)
  {
    var v1, v2 := OracleValue(p1, in1), OracleValue(p2, in2);
    MulTruncMonotone(p1, p2, in1, in2);
    var a, b := DiscountMultiplier(discount), BufferMultiplier(buffer);
    if AtScale(totalPurchased, scale) {
      MulTruncMonotone(b, b, v1, v2);
    } else {
      var pre := scale - totalPurchased;
      RawBelowScaleMonotone(a, b, pre, v1, v2);
      assert AmountOut(p1, in1, totalPurchased, scale, discount, buffer) == RawBelowScale(a, b, pre, v1) / BASE;
      assert AmountOut(p2, in2, totalPurchased, scale, discount, buffer) == RawBelowScale(a, b, pre, v2) / BASE;
      DivBase(RawBelowScale(a, b, pre, v1), RawBelowScale(a, b, pre, v2));
    }
  }
}
