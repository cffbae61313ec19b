# BondingCurve: pricing, purchase accounting and PCV allocation

A Dafny model of the Fei Protocol `BondingCurve` contract, with proofs about it. The
contract sells FEI for a reserve token. The price is the oracle value of the input times
a multiplier. Below `scale` the multiplier applies a discount:
`10000 / (10000 - discount)`. At or above `scale` it applies a buffer:
`10000 / (10000 + buffer)`. `scale` is measured against `totalPurchased`, the FEI sold
since the last `reset`. A single purchase may cross `scale`. Purchases are stopped by
pause, by an invalid oracle and by the cumulative mint cap. The reserve tokens the curve
holds are sent to a table of PCV deposits by `allocate`, split by ratios in basis points
that add up to exactly 10000. The caller of `allocate` gets a fixed FEI incentive when
the incentive timer has run out.

The behaviour is taken from the contract's unit test,
`test/unit/bondingcurve/BondingCurve.test.js`. The Solidity source of the contract is not
part of this model. `scenarios.dfy` restates the test's `describe` blocks for
purchase, allocate, reset, checkAllocation, the setters and pause/unpause (not those for
`setOracle` and `setCore`, which are left out below) as methods. Together the
methods assert each block's expected getAmountOut results, FEI and deposit balances,
`totalPurchased`, `atScale`, prices, held balances, events and reverts, including every
non-governor revert of those blocks. Dafny proves each
assertion about the model.

Files, one module each:

- `errors.dfy` (`Errors`): revert reasons, and the `Result` and `Outcome` types.
- `fixed_point.dfy` (`FixedPoint`): the protocol's 18-decimal `Decimal` numbers, which
  truncate, and `GRANULARITY` (10000 basis points).
- `pricing.dfy` (`Pricing`): `getCurrentPrice`, `getAmountOut`, `atScale`, and the
  checks `purchase` makes, as functions. Lemmas about these.
- `splitter.dfy` (`Splitter`): `checkAllocation`, the weighted split of the held balance,
  and token ledgers. Lemmas about these.
- `incentive.dfy` (`Incentive`): the keeper-incentive timer and its cooldown lemmas.
- `bonding_curve.dfy` (`BondingCurve`): class `Curve`, the contract's state. `purchase`,
  `reset`, `allocate`, the setters and pause/unpause are methods. Each states the whole
  new state in terms of the old state and of the functions above.
- `scenarios.dfy` (`Scenarios`): client methods that replay the test's `describe` blocks
  against `Curve`. They assert the amounts, balances, prices and reverts the test expects.

How the model treats outside inputs:

- The oracle is a parameter: `OracleReading(price, valid)`, with the price as an
  18-decimal fixed-point number.
- Block time is a parameter (`now`).
- The governor and guardian role checks are boolean parameters. A false one leads to the
  `NotGovernor` or `NotGuardianOrGovernor` error.
- FEI minted and reserve tokens sent are ghost ledgers (`fei`, `deposited`).
- Events go to a ghost log (`events`).

### Choices the test pins down, and choices the model makes

- Pinned by the test: `getCurrentPrice` returns only the regime multiplier, for example
  1010101010101010101 = 1e18·10000/9900, rounded down. It is not multiplied by the oracle
  price: the test expects the same value at oracle price 500 and at oracle price 400
  (lines 150 and 266).
- Fitted to one vector: the rule for a purchase that crosses `scale`. The test has a
  single crossing purchase (lines 286-288, expecting 200,020,002,000), and the code
  that prices it is not part of this model. The model splits the purchase on its oracle
  value: the part `scale - totalPurchased` is priced at the discount multiplier, the rest
  at the buffer multiplier, and the two raw products are added, then truncated once.
  That reproduces the vector, but it is not the only rule that does.
  - The closed form `amountIn·price·10000²/((10000−discount)(10000+buffer))` also gives
    200,020,002,000, because in that test discount equals buffer and the split falls at
    exactly half the value.
  - A split that converts `scale - totalPurchased` into reserve-token units and prices
    the leftover input at the buffer gives about 200,000,000,000, so that rule is ruled
    out.
  - The pricing lemmas (`AmountOut`'s bounds, `AmountOutMonotone`, `CrossingReachesScale`,
    `AtScaleAfterPurchase`) are about the fitted rule.
- The test fixes only that `allocate` reverts with a held balance of 0 or 1. The model
  uses the rule that `allocate` reverts when no deposit would receive a nonzero share
  (`Splitter.Disbursable`). `Splitter.DisbursableIff` characterises that rule, and
  `Splitter.EnoughHeldIsDisbursable` shows that a held balance of at least one unit per
  deposit always allocates.
- Shares are rounded down and the remainder (dust) stays in the held balance. The
  `Allocate` event reports the whole held balance. `Splitter.AllocationBounds` bounds the
  dust by the number of deposits. `Splitter.ExactSplitDrains` shows that the balance is
  drained when every share divides evenly, as in all of the test's cases.

## Model

| member | source | states |
|---|---|---|
| FixedPoint.Ratio | test/unit/bondingcurve/BondingCurve.test.js:69-71 | Decimal.ratio(a, b) is a·1e18/b rounded down: r·b ≤ a·1e18 < (r+1)·b |
| FixedPoint.MulTrunc | test/unit/bondingcurve/BondingCurve.test.js:73-75 | multiplying a whole amount by a fixed-point number truncates: r·1e18 ≤ d·n < (r+1)·1e18 |
| FixedPoint.MulTruncMonotone | test/unit/bondingcurve/BondingCurve.test.js:234-240 | a truncated product grows with each of its two factors |
| Pricing.DiscountMultiplier | test/unit/bondingcurve/BondingCurve.test.js:149-151 | the pre-scale multiplier is at least one and is 1e18·10000/(10000−discount) rounded down |
| Pricing.BufferMultiplier | test/unit/bondingcurve/BondingCurve.test.js:313-315 | the post-scale multiplier lies in (0, 1] and is 1e18·10000/(10000+buffer) rounded down |
| Pricing.CurrentPrice | test/unit/bondingcurve/BondingCurve.test.js:145-151 | getCurrentPrice is at most one at or above scale and at least one below it |
| Scenarios.MultiplierVectors | test/unit/bondingcurve/BondingCurve.test.js:408-409 | the multipliers are 1010101010101010101 (discount 100), 990099009900990099 (buffer 100) and 952380952380952380 (buffer 500) |
| Pricing.GetAmountOut | test/unit/bondingcurve/BondingCurve.test.js:113-118 | getAmountOut reverts with InvalidOracle exactly when the oracle is invalid, and is the curve's AmountOut otherwise |
| Pricing.PurchaseQuote | test/unit/bondingcurve/BondingCurve.test.js:104-118 | purchase reverts with Paused iff paused, with InvalidOracle iff unpaused with an invalid oracle, and with ExceedsMintCap iff totalPurchased plus the output would pass the mint cap; on success totalPurchased plus the output is within the cap |
| Pricing.SingleRegimeAtCurrentPrice | test/unit/bondingcurve/BondingCurve.test.js:121-124 | a purchase that does not cross scale earns its oracle value times getCurrentPrice: the discount multiplier below scale, the buffer multiplier at or above it |
| Pricing.BelowScaleIsLinear | test/unit/bondingcurve/BondingCurve.test.js:157-162 | when a purchase leaves totalPurchased strictly below scale, its output is the oracle value times the discount multiplier |
| Pricing.AmountOut | test/unit/bondingcurve/BondingCurve.test.js:284-288 | getAmountOut's arithmetic, including the split of a purchase that crosses scale: every output, crossing or not, lies between pricing the whole oracle value at the buffer and pricing it all at the discount |
| Pricing.AtScaleAfterPurchase | test/unit/bondingcurve/BondingCurve.test.js:305-311 | atScale() holds after a purchase exactly when it held before, or the purchase crossed scale, or the purchase priced at the discount brought totalPurchased up to scale |
| Pricing.CrossingReachesScale | test/unit/bondingcurve/BondingCurve.test.js:305-311 | a purchase that crosses scale leaves the curve at scale |
| Pricing.AmountOutMonotone | test/unit/bondingcurve/BondingCurve.test.js:234-288 | getAmountOut never gives less FEI for a larger input or a higher oracle price, in both regimes and across scale (so the lower price of lines 234-240 never gives more) |
| Splitter.CheckAllocation | test/unit/bondingcurve/BondingCurve.test.js:606-617 | checkAllocation passes iff the lengths agree and the ratios sum to exactly 10000; LengthMismatch is reported first, then RatiosNotFull |
| Splitter.SplitBounds | test/unit/bondingcurve/BondingCurve.test.js:503-506 | the shares add up to at most the weighted total, and each deposit loses less than one unit to truncation |
| Splitter.AllocationBounds | test/unit/bondingcurve/BondingCurve.test.js:512-517 | under a valid table the shares never exceed the held balance and leave less dust than there are deposits |
| Splitter.ExactSplitDrains | test/unit/bondingcurve/BondingCurve.test.js:495-500 | when every share divides evenly, allocate hands out the whole held balance |
| Splitter.Share | test/unit/bondingcurve/BondingCurve.test.js:502-505 | a deposit's share is its weighted part of the held balance rounded down: 10000·share ≤ balance·ratio < 10000·(share+1) |
| Splitter.Disbursable | test/unit/bondingcurve/BondingCurve.test.js:468-471 | allocate's revert rule: nothing is disbursable when nothing is held |
| Splitter.DisbursableIff | test/unit/bondingcurve/BondingCurve.test.js:474-480 | allocate has something to send iff some deposit's weighted share reaches one unit |
| Splitter.EnoughHeldIsDisbursable | test/unit/bondingcurve/BondingCurve.test.js:483-501 | a held balance of at least one unit per deposit can always be allocated |
| Splitter.Credit | test/unit/bondingcurve/BondingCurve.test.js:212-215 | paying an account raises its balance by the amount and leaves every other account as it was |
| Splitter.CreditAllBalance | test/unit/bondingcurve/BondingCurve.test.js:503-506 | paying a list credits each account with the total listed for it and nothing more |
| Splitter.CreditAllDistinct | test/unit/bondingcurve/BondingCurve.test.js:593-596 | with distinct deposits, each receives exactly its own share |
| Incentive.TimerAfter | test/unit/bondingcurve/BondingCurve.test.js:540-542 | after an allocate the timer is either restarted at that time or left where it was, and never moves backwards |
| Incentive.CooldownPaysAtMostOnce | test/unit/bondingcurve/BondingCurve.test.js:519-542 | two allocates less than the duration apart pay the incentive at most once |
| Incentive.PaidAgainAfterCooldown | test/unit/bondingcurve/BondingCurve.test.js:545-570 | after a paid allocate, an allocate at least the duration later is paid again |
| Incentive.PaymentsSpaced | test/unit/bondingcurve/BondingCurve.test.js:483-510 | over any sequence of allocates, paid incentives are at least the duration apart, the first at least the duration after the timer started |
| Incentive.AtMostOnePaymentPerWindow | test/unit/bondingcurve/BondingCurve.test.js:512-542 | however many allocates fall inside one window shorter than the duration, at most one is paid |
| BondingCurve.Curve.constructor | test/unit/bondingcurve/BondingCurve.test.js:44-60 | deployment stores the settings and table, starts the timer, and begins with nothing purchased, nothing held, unpaused |
| BondingCurve.Curve.GetAllocation | test/unit/bondingcurve/BondingCurve.test.js:629-633 | getAllocation returns the stored table, which always has equal lengths and ratios summing to 10000 |
| BondingCurve.Curve.Purchase | test/unit/bondingcurve/BondingCurve.test.js:137-154 | purchase returns PurchaseQuote; on success it adds the output to totalPurchased and to the recipient's FEI, adds the input to the held balance and logs Purchase(to, in, out); on a revert nothing changes |
| BondingCurve.Curve.ResetCurve | test/unit/bondingcurve/BondingCurve.test.js:358-373 | reset zeroes totalPurchased (so atScale is false when scale > 0) and leaves the held balance alone; governor only |
| BondingCurve.Curve.AllocatePCV | test/unit/bondingcurve/BondingCurve.test.js:460-515 | allocate reverts when paused or when nothing is disbursable; otherwise it pays each deposit its share, lowers the held balance by what it paid, reports the whole held balance, and pays the caller the incentive iff the timer has run out, restarting it |
| BondingCurve.Curve.Distribute | test/unit/bondingcurve/BondingCurve.test.js:503-506 | the transfer loop credits the deposits with the shares in table order and lowers the held balance by their sum |
| BondingCurve.Curve.SetAllocation | test/unit/bondingcurve/BondingCurve.test.js:619-638 | setAllocation replaces the whole table when checkAllocation passes and the caller is governor, logging the old and new deposits; otherwise nothing changes |
| BondingCurve.Curve.SetScale | test/unit/bondingcurve/BondingCurve.test.js:659-675 | setScale sets scale and logs old and new; governor only |
| BondingCurve.Curve.SetBuffer | test/unit/bondingcurve/BondingCurve.test.js:677-697 | setBuffer rejects non-governors, then values of 10000 or more, leaving the buffer unchanged; otherwise sets it |
| BondingCurve.Curve.SetDiscount | test/unit/bondingcurve/BondingCurve.test.js:699-719 | setDiscount rejects non-governors, then values of 10000 or more, leaving the discount unchanged; otherwise sets it |
| BondingCurve.Curve.SetMintCap | test/unit/bondingcurve/BondingCurve.test.js:65 | setMintCap sets the cap; governor only |
| BondingCurve.Curve.SetIncentiveAmount | test/unit/bondingcurve/BondingCurve.test.js:740-758 | setIncentiveAmount sets the incentive and logs old and new; governor only |
| BondingCurve.Curve.SetIncentiveFrequency | test/unit/bondingcurve/BondingCurve.test.js:760-778 | setIncentiveFrequency sets the timer duration and logs old and new; governor only |
| BondingCurve.Curve.Pause | test/unit/bondingcurve/BondingCurve.test.js:785-794 | pause succeeds for a guardian or governor on an unpaused curve and sets paused; otherwise nothing changes |
| BondingCurve.Curve.Unpause | test/unit/bondingcurve/BondingCurve.test.js:796-810 | unpause succeeds for a guardian or governor on a paused curve and clears paused; otherwise nothing changes |

## Left out

- Integer width: amounts are unbounded naturals. Solidity's checked uint256 arithmetic,
  which reverts on overflow, is not modelled.
- The payer's side of `purchase`: the reserve-token `transferFrom` from the caller and its
  allowance, and the check that no ETH is sent. The model records only the tokens the
  curve receives.
- The `deposit()` call each PCV deposit makes after receiving its share; the deposits'
  own accounting is outside the curve.
- `setOracle`, `setCore`, the backup oracle and `updateOracle`. The oracle's answer is a
  parameter, so its address does not appear.
- The role registry behind governor and guardian checks. It is reduced to boolean
  parameters.
- Pricing.AmountOut: the rule for a purchase that crosses `scale` is fitted to the test's
  single crossing vector (see above), because the contract's pricing code is not part of
  this model. Where the contract's rule differs from the fitted one on other crossing
  purchases, the model does not capture that.
- BondingCurve.Curve.constructor: deployment with a table that fails `checkAllocation`,
  or with a buffer or discount of 10000 or more, is excluded by a precondition instead of
  being modelled as a revert. The model says nothing about such a deployment.
- The deployment's initial mint cap is not visible (the test sets it right after
  deployment), so the model takes it as a constructor argument.
- Events of `pause` and `unpause`. Whether pausing an already paused curve reverts is not
  shown by the test; the model follows the usual Pausable rule that it does.
- The incentive timer's "not yet started" state: the curve starts the timer at
  deployment, so the state never arises.
- The keeper incentive is minted outside `totalPurchased` and the mint cap.
- BondingCurve.Curve.AllocatePCV: the revert threshold is the "nothing disbursable" rule
  above. The test pins only balances 0 and 1, so a different threshold in the contract
  that agrees on those two cases would not be captured.
