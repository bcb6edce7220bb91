/** Values shared by the whole model of the HCVoting proposal lifecycle:
    the engine's configuration, the proposal states with the numbering the
    contract exposes, the revert reasons and the events it emits. */
module HCTypes {

  datatype Option<+T> = None | Some(value: T)

  /** An account (an address on chain). */
  type Address = nat

  /** The contract's configuration constants, fixed when it is set up.
      Durations are in seconds. */
  datatype Config = Config(
    precision: nat,          // PRECISION_MULTIPLIER
    thresholdBase: nat,      // CONFIDENCE_THRESHOLD_BASE
    pendedBoostPeriod: nat,  // PENDED_BOOST_PERIOD_SECS
    boostPeriod: nat,        // BOOST_PERIOD_SECS
    quietEndingPeriod: nat   // QUIET_ENDING_PERIOD_SECS
  )

  /** The proposal states this core reaches. The contract's enum also has a
      value 0 whose meaning the tests never fix; it is not modelled. */
  datatype ProposalState = Unpended | Pended | Boosted

  /** The number the contract reports for a state. */
  function StateCode(s: ProposalState): (n: nat)
    ensures 1 <= n <= 3
  {
    match s
    case Unpended => 1
    case Pended => 2
    case Boosted => 3
  }

  /** Why a call reverts. */
  datatype Error =
    | ProposalIsBoosted       // stake, unstake or boost on a Boosted proposal
    | NotEnoughConfidence     // boost below the confidence threshold
    | NotEnoughPendedTime     // boost before the pended period has elapsed
    | NotEnoughStaked         // unstake of more than the caller has staked

  /** The revert reason string that goes with an error. The first three
      are the contract's own; the reason for an unstake beyond the caller's
      stake is not known, and the last string is a description in angle
      brackets, not a reason string. */
  function Label(e: Error): string
  {
    match e
    case ProposalIsBoosted => "PROPOSAL_IS_BOOSTED"
    case NotEnoughConfidence => "PROPOSAL_DOESNT_HAVE_ENOUGH_CONFIDENCE"
    case NotEnoughPendedTime => "PROPOSAL_HASNT_HAD_CONFIDENCE_ENOUGH_TIME"
    case NotEnoughStaked => "<unstake exceeds the caller's stake; reason string unknown>"
  }

  /** Distinct errors have distinct revert reasons, so a caller can tell
      which precondition failed. */
  lemma LabelsDistinct(e1: Error, e2: Error)
    ensures Label(e1) == Label(e2) ==> e1 == e2
  {
  }

  /** Events in a transaction receipt. `newState` is a state code. */
  datatype Event =
    | ProposalStateChanged(proposalId: nat, newState: nat)
    | ProposalLifetimeExtended(proposalId: nat, newLifetime: nat)

  /** The result of a call that may revert: the events it emitted, or the
      reason it reverted (a reverted call changes nothing). */
  datatype Outcome = Success(events: seq<Event>) | Failure(error: Error)
}
