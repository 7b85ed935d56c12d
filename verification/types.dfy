/** Values shared by every part of the crowdfunding escrow model: addresses,
    basis points, the named errors of the contract and the fee arithmetic. */
module Types {

  /** Account and token addresses; 0 is the null address. */
  type Address = nat

  const NullAddress: Address := 0

  /** The denominator of every basis-point quantity (donation fees and vote percentages). */
  const MaxBps: nat := 10000

  /** A basis-point quantity that has passed the `CantGoAbove10000` check. */
  type Bps = x: nat | x <= MaxBps

  /** The smallest donation the contract accepts. The observable behaviour only brackets it:
      5000 is refused with `AmountTooSmall` and 20000 is accepted; the value is chosen inside
      that bracket. */
  const MinDonation: nat := 10000

  /** The named errors (custom reverts) of the contract, plus the failure of the
      token ledger when the escrow cannot cover a payout. */
  datatype Error =
    | ZeroAddress
    | ZeroAmount
    | ZeroRequiredAmount
    | ZeroThresholds
    | ZeroVoteCooldown
    | ZeroRequiredVotePercentage
    | CantGoAbove10000
    | AmountTooSmall
    | InvalidProjectId
    | InvalidThresholdId
    | CantWithdrawToSameProject
    | DifferentExchangeToken
    | TokenNotSupported
    | ProjectNotActive
    | NotInVotingSession
    | CanOnlyVoteOnce
    | CantDeliberateWithoutVotes
    | NoFundsToWithdraw
    | NoFeesToWithdraw
    | AllowanceNotApproved
    | NotADonator
    | NotProjectOwner
    | LedgerTransferFailed

  /** Every entry point either commits a new value or reverts with one error. */
  datatype Result<T> = Ok(value: T) | Err(error: Error)

  /** The fee skimmed from a donation of `amount` at `bps` basis points, rounded down. */
  function Fee(amount: nat, bps: Bps): (fee: nat)
    ensures fee <= amount
    ensures bps == 0 ==> fee == 0
  {
    assert amount * bps <= amount * MaxBps;
    amount * bps / MaxBps
  }

  /** The fee is the largest whole amount whose 10000-fold does not exceed `amount * bps`,
      and below a 100% rate it leaves part of any positive donation. */
  lemma FeeIsRoundedDown(amount: nat, bps: Bps)
    ensures Fee(amount, bps) * MaxBps <= amount * bps < (Fee(amount, bps) + 1) * MaxBps
    ensures bps < MaxBps && amount > 0 ==> Fee(amount, bps) < amount
  {
    assert bps < MaxBps && amount > 0 ==> amount * bps < amount * MaxBps;
  }

  /** What is left of a donation once the fee is taken; it is credited to the project. */
  function Net(amount: nat, bps: Bps): (net: nat)
    ensures net + Fee(amount, bps) == amount
    ensures bps < MaxBps && amount > 0 ==> net > 0
    ensures bps == 0 ==> net == amount
  {
    FeeIsRoundedDown(amount, bps);
    amount - Fee(amount, bps)
  }
}
