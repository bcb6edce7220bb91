/** One proposal of the HCVoting contract and the calls that change it:
    stake, unstake, vote and boostProposal. Every call receives the block
    time `now`; a call that reverts returns its reason and changes nothing. */
module Proposals {
  import opened HCTypes
  import opened ConfidenceEngine
  import opened TimeGate
  import opened Ledger

  class Proposal {
    const id: nat
    const config: Config
    /** When the proposal was created; the quiet-ending window is measured
        from here. */
    const startDate: nat

    var upstake: nat
    var downstake: nat
    var upstakes: Stakes
    var downstakes: Stakes
    var votesFor: nat
    var votesAgainst: nat
    var state: ProposalState
    /** When the proposal last became Pended; 0 while it is Unpended. */
    var lastPendedDate: nat
    var lifetime: nat
    var boostedDate: nat

    /** The proposal's invariant: totals agree with the per-staker records,
        the Pended state is exactly "confidence meets the threshold" while
        stakes can still move, and a Boosted proposal met every boost
        condition and keeps at least the base boosted lifetime. */
    ghost predicate Valid()
      reads this
    {
      && upstake == Sum(upstakes)
      && downstake == Sum(downstakes)
      && (state != Boosted ==> (state == Pended <==> MeetsThreshold(config, upstake, downstake)))
      && (state == Unpended ==> lastPendedDate == 0)
      && (state == Boosted ==>
            && MeetsThreshold(config, upstake, downstake)
            && HasPendedLongEnough(config, boostedDate, lastPendedDate)
            && lifetime >= config.boostPeriod)
    }

    /** createProposal: a fresh Unpended proposal with no stakes and no
        votes. Its lifetime before boosting is given by the caller. */
    constructor (id: nat, config: Config, now: nat, initialLifetime: nat)
      ensures Valid()
      ensures this.id == id && this.config == config && startDate == now
      ensures upstake == 0 && downstake == 0 && upstakes == map[] && downstakes == map[]
      ensures votesFor == 0 && votesAgainst == 0
      ensures state == Unpended && lastPendedDate == 0
      ensures lifetime == initialLifetime && boostedDate == 0
    {
      this.id := id;
      this.config := config;
      startDate := now;
      upstake, downstake := 0, 0;
      upstakes, downstakes := map[], map[];
      votesFor, votesAgainst := 0, 0;
      state := Unpended;
      lastPendedDate := 0;
      lifetime := initialLifetime;
      boostedDate := 0;
    }

    /** getConfidence: the current confidence of the proposal. */
    function GetConfidence(): (r: Option<nat>)
      reads this
      ensures r.Some? <==> downstake > 0
      ensures r.Some? ==> r.value * downstake <= upstake * config.precision < (r.value + 1) * downstake
    {
      Confidence(config, upstake, downstake)
    }

    /** After the stake totals of an Unpended or Pended proposal move,
        set its state from the threshold test: becoming Pended records
        `now`, becoming Unpended clears the date, and staying Pended keeps
        the recorded date. */
    method ReevaluatePending(now: nat) returns (events: seq<Event>)
      requires upstake == Sum(upstakes) && downstake == Sum(downstakes)
      requires state != Boosted
      requires state == Unpended ==> lastPendedDate == 0
      modifies this`state, this`lastPendedDate
      ensures Valid()
      ensures state == (if MeetsThreshold(config, upstake, downstake) then Pended else Unpended)
      ensures lastPendedDate ==
                if state == Unpended then 0
                else if old(state) == Unpended then now
                else old(lastPendedDate)
      ensures events == if state == old(state) then [] else [ProposalStateChanged(id, StateCode(state))]
    {
      var next := if MeetsThreshold(config, upstake, downstake) then Pended else Unpended;
      events := [];
      if next != state {
        if next == Pended {
          lastPendedDate := now;
        } else {
          lastPendedDate := 0;
        }
        state := next;
        events := [ProposalStateChanged(id, StateCode(next))];
      }
    }

    /** stake: add `amount` of the staker's weight to one side. Reverts on a
        Boosted proposal. The staker's balance is not modelled. */
    method Stake(staker: Address, amount: nat, supports: bool, now: nat) returns (r: Outcome)
      requires Valid()
      modifies this
      ensures Valid()
      ensures r.Failure? <==> old(state) == Boosted
      ensures r.Failure? ==> r.error == ProposalIsBoosted && unchanged(this)
      ensures r.Success? ==>
                && upstakes == (if supports then old(upstakes)[staker := StakeOf(old(upstakes), staker) + amount]
                                else old(upstakes))
                && downstakes == (if supports then old(downstakes)
                                  else old(downstakes)[staker := StakeOf(old(downstakes), staker) + amount])
                && upstake == old(upstake) + (if supports then amount else 0)
                && downstake == old(downstake) + (if supports then 0 else amount)
                && state == (if MeetsThreshold(config, upstake, downstake) then Pended else Unpended)
                && lastPendedDate == (if state == Unpended then 0
                                      else if old(state) == Unpended then now
                                      else old(lastPendedDate))
                && r.events == (if state == old(state) then []
                                else [ProposalStateChanged(id, StateCode(state))])
                && votesFor == old(votesFor) && votesAgainst == old(votesAgainst)
                && lifetime == old(lifetime) && boostedDate == old(boostedDate)
    {
      if state == Boosted {
        return Failure(ProposalIsBoosted);
      }
      if supports {
        SumUpdate(upstakes, staker, StakeOf(upstakes, staker) + amount);
        upstakes := upstakes[staker := StakeOf(upstakes, staker) + amount];
        upstake := upstake + amount;
      } else {
        SumUpdate(downstakes, staker, StakeOf(downstakes, staker) + amount);
        downstakes := downstakes[staker := StakeOf(downstakes, staker) + amount];
        downstake := downstake + amount;
      }
      var events := ReevaluatePending(now);
      r := Success(events);
    }

    /** unstake: withdraw `amount` of what the staker has on one side.
        Reverts on a Boosted proposal, or when the staker has less than
        `amount` on that side. */
    method Unstake(staker: Address, amount: nat, supports: bool, now: nat) returns (r: Outcome)
      requires Valid()
      modifies this
      ensures Valid()
      ensures r.Failure? ==>
                r.error == (if old(state) == Boosted then ProposalIsBoosted else NotEnoughStaked)
      ensures r.Success? <==>
                old(state) != Boosted &&
                amount <= StakeOf(if supports then old(upstakes) else old(downstakes), staker)
      ensures r.Failure? ==> unchanged(this)
      ensures r.Success? ==>
                && upstakes == (if supports then old(upstakes)[staker := StakeOf(old(upstakes), staker) - amount]
                                else old(upstakes))
                && downstakes == (if supports then old(downstakes)
                                  else old(downstakes)[staker := StakeOf(old(downstakes), staker) - amount])
                && upstake == old(upstake) - (if supports then amount else 0)
                && downstake == old(downstake) - (if supports then 0 else amount)
                && state == (if MeetsThreshold(config, upstake, downstake) then Pended else Unpended)
                && lastPendedDate == (if state == Unpended then 0
                                      else if old(state) == Unpended then now
                                      else old(lastPendedDate))
                && r.events == (if state == old(state) then []
                                else [ProposalStateChanged(id, StateCode(state))])
                && votesFor == old(votesFor) && votesAgainst == old(votesAgainst)
                && lifetime == old(lifetime) && boostedDate == old(boostedDate)
    {
      if state == Boosted {
        return Failure(ProposalIsBoosted);
      }
      if amount > StakeOf(if supports then upstakes else downstakes, staker) {
        return Failure(NotEnoughStaked);
      }
      if supports {
        StakeOfAtMostSum(upstakes, staker);
        SumUpdate(upstakes, staker, StakeOf(upstakes, staker) - amount);
        upstakes := upstakes[staker := StakeOf(upstakes, staker) - amount];
        upstake := upstake - amount;
      } else {
        StakeOfAtMostSum(downstakes, staker);
        SumUpdate(downstakes, staker, StakeOf(downstakes, staker) - amount);
        downstakes := downstakes[staker := StakeOf(downstakes, staker) - amount];
        downstake := downstake - amount;
      }
      var events := ReevaluatePending(now);
      r := Success(events);
    }

    /** vote: add `weight` to one side of the tally. Voting is accepted in
        every state. On a Boosted proposal, a vote that flips the winning
        side inside the quiet-ending window extends the lifetime by
        QUIET_ENDING_PERIOD_SECS and emits ProposalLifetimeExtended. */
    method Vote(supports: bool, weight: nat, now: nat) returns (events: seq<Event>)
      requires Valid()
      modifies this`votesFor, this`votesAgainst, this`lifetime
      ensures Valid()
      ensures votesFor == old(votesFor) + (if supports then weight else 0)
      ensures votesAgainst == old(votesAgainst) + (if supports then 0 else weight)
      ensures var extended :=
                state == Boosted &&
                Decision(old(votesFor), old(votesAgainst)) != Decision(votesFor, votesAgainst) &&
                InQuietEndingWindow(config, now, startDate, old(lifetime));
              && lifetime == (if extended then old(lifetime) + config.quietEndingPeriod else old(lifetime))
              && events == (if extended then [ProposalLifetimeExtended(id, lifetime)] else [])
      ensures lifetime >= old(lifetime)
    {
      var before := Decision(votesFor, votesAgainst);
      if supports {
        votesFor := votesFor + weight;
      } else {
        votesAgainst := votesAgainst + weight;
      }
      var after := Decision(votesFor, votesAgainst);
      events := [];
      if state == Boosted && before != after && InQuietEndingWindow(config, now, startDate, lifetime) {
        lifetime := lifetime + config.quietEndingPeriod;
        events := [ProposalLifetimeExtended(id, lifetime)];
      }
    }

    /** boostProposal: callable by anyone. Reverts on a Boosted proposal,
        below the confidence threshold, or before the proposal has been
        Pended for PENDED_BOOST_PERIOD_SECS; otherwise the proposal becomes
        Boosted with lifetime BOOST_PERIOD_SECS. */
    method Boost(now: nat) returns (r: Outcome)
      requires Valid()
      modifies this`state, this`lifetime, this`boostedDate
      ensures Valid()
      ensures r == (if old(state) == Boosted then Failure(ProposalIsBoosted)
                    else if !MeetsThreshold(config, upstake, downstake) then Failure(NotEnoughConfidence)
                    else if !HasPendedLongEnough(config, now, lastPendedDate) then Failure(NotEnoughPendedTime)
                    else Success([ProposalStateChanged(id, StateCode(Boosted))]))
      ensures r == Failure(NotEnoughConfidence) <==> old(state) == Unpended
      ensures r.Failure? ==> unchanged(this)
      ensures r.Success? ==>
                old(state) == Pended && state == Boosted &&
                lifetime == config.boostPeriod && boostedDate == now
    {
      if state == Boosted {
        return Failure(ProposalIsBoosted);
      }
      if !MeetsThreshold(config, upstake, downstake) {
        return Failure(NotEnoughConfidence);
      }
      if !HasPendedLongEnough(config, now, lastPendedDate) {
        return Failure(NotEnoughPendedTime);
      }
      state := Boosted;
      lifetime := config.boostPeriod;
      boostedDate := now;
      r := Success([ProposalStateChanged(id, StateCode(Boosted))]);
    }
  }
}
