/** Time and decision rules: the pended dwell before boosting and the
    quiet-ending window. All of them are functions of the timestamps they
    are given; the contract reads the block time and passes it in. */
module TimeGate {
  import opened HCTypes

  /** The proposal has been Pended for at least PENDED_BOOST_PERIOD_SECS. */
  predicate HasPendedLongEnough(c: Config, now: nat, lastPendedDate: nat)
  {
    now >= lastPendedDate + c.pendedBoostPeriod
  }

  /** When the quiet-ending window of a proposal opens: QUIET_ENDING_PERIOD_SECS
      before the end of its lifetime, measured from the proposal's start. */
  function QuietEndingWindowStart(c: Config, startDate: nat, lifetime: nat): int
  {
    startDate + lifetime - c.quietEndingPeriod
  }

  predicate InQuietEndingWindow(c: Config, now: nat, startDate: nat, lifetime: nat)
  {
    now >= QuietEndingWindowStart(c, startDate, lifetime)
  }

  /** The winning side: true when the votes for strictly outnumber the
      votes against; a tie counts as against. */
  predicate Decision(votesFor: nat, votesAgainst: nat)
  {
    votesFor > votesAgainst
  }

  /** Waiting never closes the pended-dwell gate: a boost refused for lack
      of time can succeed when retried later. */
  lemma PendedGateStaysOpen(c: Config, lastPendedDate: nat, now: nat, later: nat)
    requires now <= later
    ensures HasPendedLongEnough(c, now, lastPendedDate) ==> HasPendedLongEnough(c, later, lastPendedDate)
    ensures !HasPendedLongEnough(c, later, lastPendedDate) ==> !HasPendedLongEnough(c, now, lastPendedDate)
  {
  }

  /** Half of a positive pended period is not enough; the whole period is. */
  lemma PendedGateBoundary(c: Config, lastPendedDate: nat)
    requires c.pendedBoostPeriod > 0
    ensures !HasPendedLongEnough(c, lastPendedDate + c.pendedBoostPeriod / 2, lastPendedDate)
    ensures HasPendedLongEnough(c, lastPendedDate + c.pendedBoostPeriod, lastPendedDate)
  {
  }

  /** Extending the lifetime by the quiet period moves the window's opening
      by exactly that period, and a time inside the later window is inside
      the earlier one too. */
  lemma ExtensionMovesWindow(c: Config, startDate: nat, lifetime: nat, now: nat)
    ensures QuietEndingWindowStart(c, startDate, lifetime + c.quietEndingPeriod) ==
            QuietEndingWindowStart(c, startDate, lifetime) + c.quietEndingPeriod
    ensures InQuietEndingWindow(c, now, startDate, lifetime + c.quietEndingPeriod) ==>
            InQuietEndingWindow(c, now, startDate, lifetime)
  {
  }

  /** The time the tests flip the decision at, half a quiet period before
      the end of the lifetime, lies in the window. */
  lemma HalfQuietPeriodBeforeEndInWindow(c: Config, startDate: nat, lifetime: nat)
    requires c.quietEndingPeriod / 2 <= startDate + lifetime
    ensures InQuietEndingWindow(c, startDate + lifetime - c.quietEndingPeriod / 2, startDate, lifetime)
  {
  }

  /** A vote against flips the decision exactly when the votes for were
      winning and the added weight brings the votes against level or
      ahead; a vote for flips it exactly when it puts the votes for
      strictly ahead of votes that were level or ahead. */
  lemma DecisionFlip(votesFor: nat, votesAgainst: nat, weight: nat)
    ensures (Decision(votesFor, votesAgainst) != Decision(votesFor, votesAgainst + weight)) <==>
            (votesFor > votesAgainst && votesAgainst + weight >= votesFor)
    ensures (Decision(votesFor, votesAgainst) != Decision(votesFor + weight, votesAgainst)) <==>
            (votesFor <= votesAgainst && votesFor + weight > votesAgainst)
  {
  }
}
