/** The call sequences of the boosting tests, replayed on the model. Each
    method builds a fresh proposal 0 created at time t0 (with a lifetime
    l0 before boosting, which the tests never observe), makes the calls
    of one test with explicit times, and returns what that test reads
    back. The configuration constants stay parameters: only their signs
    and the timing relations the tests rely on are assumed. */
module BoostScenarios {
  import opened HCTypes
  import opened ConfidenceEngine
  import opened TimeGate
  import opened Ledger
  import opened Proposals

  const StakeHolder1: Address := 1
  const StakeHolder2: Address := 2
  const StakeHolder4: Address := 4
  const StakeHolder5: Address := 5

  const Holder1StakeBalance: nat := 100
  const Holder2StakeBalance: nat := 100
  const Holder1VoteBalance: nat := 100
  const Holder3VoteBalance: nat := 200

  /** HOLDER_5_STAKE_BALANCE: exactly enough support to reach the threshold
      against HOLDER_1_STAKE_BALANCE. */
  function Holder5StakeBalance(c: Config): nat
  {
    c.thresholdBase * Holder1StakeBalance
  }

  /** The multiplier and the threshold base are positive. */
  predicate PositiveRatios(c: Config)
  {
    c.precision > 0 && c.thresholdBase > 0
  }

  /** Half of PENDED_BOOST_PERIOD_SECS, the first skip of the tests. */
  function HalfPended(c: Config): nat
  {
    c.pendedBoostPeriod / 2
  }

  /** The time at which the tests boost: two skips after creation, the
      second one of two hours plus half the pended period. */
  function BoostTime(c: Config, t0: nat): nat
  {
    t0 + HalfPended(c) + (2 * 3600 + HalfPended(c))
  }

  /** The outer set-up: holder 1 stakes against, then holder 5 stakes
      for, both at t0. */
  method SetupPended(c: Config, t0: nat, l0: nat) returns (p: Proposal)
    requires PositiveRatios(c)
    ensures fresh(p) && p.Valid()
    ensures p.id == 0 && p.config == c && p.startDate == t0 && p.lifetime == l0
    ensures p.state == Pended && p.lastPendedDate == t0
    ensures p.upstake == Holder5StakeBalance(c) && p.downstake == Holder1StakeBalance
    ensures StakeOf(p.upstakes, StakeHolder5) == Holder5StakeBalance(c)
    ensures p.votesFor == 0 && p.votesAgainst == 0
  {
    p := new Proposal(0, c, t0, l0);
    var r1 := p.Stake(StakeHolder1, Holder1StakeBalance, false, t0);
    NoSupportMissesThreshold(c, Holder1StakeBalance);
    var r2 := p.Stake(StakeHolder5, Holder5StakeBalance(c), true, t0);
    MeetsThresholdIff(c, Holder5StakeBalance(c), Holder1StakeBalance);
  }

  /** 200 for against 100 against gives a confidence of twice the
      precision multiplier. */
  method ConfidenceIsAvailable(c: Config, t0: nat, l0: nat) returns (confidence: Option<nat>)
    ensures confidence == Some(2 * c.precision)
  {
    var p := new Proposal(0, c, t0, l0);
    var r1 := p.Stake(StakeHolder4, 200, true, t0);
    var r2 := p.Stake(StakeHolder2, 100, false, t0);
    ConfidenceOfMultiple(c, 2, 100);
    confidence := p.GetConfidence();
  }

  /** Boosting a proposal nobody has staked on reverts for lack of
      confidence. */
  method BoostWithoutStakes(c: Config, t0: nat, l0: nat, now: nat) returns (r: Outcome)
    ensures r == Failure(NotEnoughConfidence)
    ensures Label(r.error) == "PROPOSAL_DOESNT_HAVE_ENOUGH_CONFIDENCE"
  {
    var p := new Proposal(0, c, t0, l0);
    r := p.Boost(now);
  }

  /** After the set-up the confidence is exactly the threshold, and the
      inclusive test makes the proposal Pended. */
  method ReachesConfidence(c: Config, t0: nat, l0: nat) returns (confidence: Option<nat>, state: nat)
    requires PositiveRatios(c)
    ensures confidence == Some(Threshold(c))
    ensures state == 2
  {
    var p := SetupPended(c, t0, l0);
    ConfidenceOfMultiple(c, c.thresholdBase, Holder1StakeBalance);
    confidence := p.GetConfidence();
    state := StateCode(p.state);
  }

  /** An opposing stake of holder 2, at any later time, brings the
      proposal back to Unpended. */
  method OpposingStakeUnpends(c: Config, t0: nat, l0: nat, now: nat) returns (state: nat)
    requires PositiveRatios(c)
    ensures state == 1
  {
    var p := SetupPended(c, t0, l0);
    var r := p.Stake(StakeHolder2, Holder2StakeBalance, false, now);
    OpposingStakeBreaksExactThreshold(c, Holder1StakeBalance, Holder2StakeBalance);
    state := StateCode(p.state);
  }

  /** Holder 5 withdrawing the whole supporting stake brings the proposal
      back to Unpended. */
  method WithdrawalUnpends(c: Config, t0: nat, l0: nat, now: nat) returns (state: nat)
    requires PositiveRatios(c)
    ensures state == 1
  {
    var p := SetupPended(c, t0, l0);
    var r := p.Unstake(StakeHolder5, Holder5StakeBalance(c), true, now);
    NoSupportMissesThreshold(c, Holder1StakeBalance);
    state := StateCode(p.state);
  }

  /** A further supporting stake after half the pended period keeps the
      proposal Pended and leaves the recorded pended date alone. */
  method SupportKeepsPendedDate(c: Config, t0: nat, l0: nat) returns (lastPendedDate: nat, state: nat)
    requires PositiveRatios(c)
    ensures lastPendedDate == t0
    ensures state == 2
  {
    var p := SetupPended(c, t0, l0);
    var r := p.Stake(StakeHolder2, Holder2StakeBalance, true, t0 + HalfPended(c));
    MeetsThresholdMonotone(c, p.upstake - Holder2StakeBalance, Holder1StakeBalance, p.upstake, Holder1StakeBalance);
    lastPendedDate := p.lastPendedDate;
    state := StateCode(p.state);
  }

  /** Boosting after only half the pended period reverts for lack of time. */
  method BoostTooEarly(c: Config, t0: nat, l0: nat) returns (r: Outcome)
    requires PositiveRatios(c) && c.pendedBoostPeriod > 0
    ensures r == Failure(NotEnoughPendedTime)
    ensures Label(r.error) == "PROPOSAL_HASNT_HAD_CONFIDENCE_ENOUGH_TIME"
  {
    var p := SetupPended(c, t0, l0);
    r := p.Boost(t0 + HalfPended(c));
  }

  /** After the pended period and two hours more, any caller can boost. */
  method BoostAfterPeriod(c: Config, t0: nat, l0: nat) returns (r: Outcome)
    requires PositiveRatios(c)
    ensures r == Success([ProposalStateChanged(0, 3)])
  {
    var p := SetupPended(c, t0, l0);
    r := p.Boost(BoostTime(c, t0));
  }

  /** The inner set-up: voter 1 votes for while the proposal is still
      Pended (accepted), then the proposal is boosted. */
  method SetupBoosted(c: Config, t0: nat, l0: nat) returns (p: Proposal, boost: Outcome)
    requires PositiveRatios(c)
    ensures fresh(p) && p.Valid()
    ensures p.id == 0 && p.config == c && p.startDate == t0
    ensures p.state == Boosted && p.lifetime == c.boostPeriod
    ensures p.upstake == Holder5StakeBalance(c) && p.downstake == Holder1StakeBalance
    ensures StakeOf(p.upstakes, StakeHolder5) == Holder5StakeBalance(c)
    ensures p.votesFor == Holder1VoteBalance && p.votesAgainst == 0
    ensures boost == Success([ProposalStateChanged(0, 3)])
  {
    p := SetupPended(c, t0, l0);
    var events := p.Vote(true, Holder1VoteBalance, BoostTime(c, t0));
    boost := p.Boost(BoostTime(c, t0));
  }

  /** A successful boost: state 3, lifetime BOOST_PERIOD_SECS, and one
      ProposalStateChanged(0, 3) event. */
  method BoostedProposal(c: Config, t0: nat, l0: nat) returns (state: nat, lifetime: nat, events: seq<Event>)
    requires PositiveRatios(c)
    ensures state == 3
    ensures lifetime == c.boostPeriod
    ensures events == [ProposalStateChanged(0, 3)]
  {
    var p, boost := SetupBoosted(c, t0, l0);
    state, lifetime, events := StateCode(p.state), p.lifetime, boost.events;
  }

  /** Once Boosted, stake, unstake (even of a stake the caller holds) and
      boost all revert with PROPOSAL_IS_BOOSTED and the stakes and the
      state stay as they were. */
  method BoostedIsFrozen(c: Config, t0: nat, l0: nat, now: nat)
    returns (stake: Outcome, unstake: Outcome, boost: Outcome, upstake: nat, downstake: nat, state: nat)
    requires PositiveRatios(c)
    ensures stake == unstake == boost == Failure(ProposalIsBoosted)
    ensures Label(stake.error) == "PROPOSAL_IS_BOOSTED"
    ensures upstake == Holder5StakeBalance(c) && downstake == Holder1StakeBalance && state == 3
  {
    var p, b := SetupBoosted(c, t0, l0);
    stake := p.Stake(StakeHolder2, Holder2StakeBalance, true, now);
    unstake := p.Unstake(StakeHolder5, Holder5StakeBalance(c), true, now);
    boost := p.Boost(now);
    upstake, downstake, state := p.upstake, p.downstake, StateCode(p.state);
  }

  /** Voter 3 flips the decision right after the boost, before the
      quiet-ending window opens: the lifetime stays BOOST_PERIOD_SECS. */
  method FlipBeforeQuietEnding(c: Config, t0: nat, l0: nat) returns (lifetime: nat, events: seq<Event>)
    requires PositiveRatios(c)
    requires BoostTime(c, 0) + c.quietEndingPeriod < c.boostPeriod
    ensures lifetime == c.boostPeriod
    ensures events == []
  {
    var p, b := SetupBoosted(c, t0, l0);
    events := p.Vote(false, Holder3VoteBalance, BoostTime(c, t0));
    lifetime := p.lifetime;
  }

  /** The same flip at creation + BOOST_PERIOD_SECS - QUIET_ENDING_PERIOD_SECS / 2,
      inside the window: the lifetime grows by QUIET_ENDING_PERIOD_SECS and
      ProposalLifetimeExtended reports the new lifetime. */
  method FlipInQuietEnding(c: Config, t0: nat, l0: nat) returns (lifetime: nat, events: seq<Event>)
    requires PositiveRatios(c)
    requires BoostTime(c, 0) + c.quietEndingPeriod / 2 <= c.boostPeriod
    ensures lifetime == c.boostPeriod + c.quietEndingPeriod
    ensures events == [ProposalLifetimeExtended(0, c.boostPeriod + c.quietEndingPeriod)]
  {
    var p, b := SetupBoosted(c, t0, l0);
    events := p.Vote(false, Holder3VoteBalance, t0 + c.boostPeriod - c.quietEndingPeriod / 2);
    lifetime := p.lifetime;
  }
}
