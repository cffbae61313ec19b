/** Revert reasons of the bonding curve and the result types its operations return. */
module Errors {

  /** Why an operation reverts; each kind stands for one revert string of the contract. */
  datatype Error =
    | Paused                 // "Pausable: paused"
    | NotPaused              // "Pausable: not paused"
    | InvalidOracle          // "OracleRef: oracle invalid"
    | ExceedsMintCap         // "BondingCurve: exceeds mint cap"
    | InvalidBasisPoints     // "BondingCurve: Buffer exceeds or matches granularity"
    | LengthMismatch         // "PCVSplitter: PCV Deposits and ratios are different lengths"
    | RatiosNotFull          // "PCVSplitter: ratios do not total 100%"
    | NotEnoughPCV           // "BondingCurve: Not enough PCV held"
    | NotGovernor            // "CoreRef: Caller is not a governor"
    | NotGuardianOrGovernor  // "CoreRef: Caller is not a guardian or governor"

  /** The value an operation returns, or the reason it reverted. */
  datatype Result<T> = Ok(value: T) | Err(error: Error)

  /** The outcome of an operation that returns nothing. */
  datatype Outcome = Pass | Fail(error: Error)
}
