# HCVoting proposal lifecycle, modelled in Dafny

HCVoting is a holographic-consensus voting app. Stakers put stake-token
weight for or against a proposal. The proposal's *confidence* is the upstake
times `PRECISION_MULTIPLIER`, divided by the downstake and rounded down. Once
the confidence reaches `CONFIDENCE_THRESHOLD_BASE × PRECISION_MULTIPLIER`
(inclusive), the proposal is **Pended** (state code 2). If the confidence
falls back below the threshold, it returns to **Unpended** (code 1). After
the proposal has been Pended for `PENDED_BOOST_PERIOD_SECS`, anyone may
**boost** it (code 3). Boosting fixes its lifetime at `BOOST_PERIOD_SECS`
from creation and freezes its stakes. Votes add to a for/against tally. If a
vote flips the winning side of a Boosted proposal inside the quiet-ending
window, the lifetime grows by `QUIET_ENDING_PERIOD_SECS` and
`ProposalLifetimeExtended` is emitted. The window opens at
`startDate + lifetime − QUIET_ENDING_PERIOD_SECS`.

The contract's own source is not part of this model. The behaviour is
reconstructed from its boosting test suite, `test/Boost.test.js`, which
fixes most rules modelled here as exact expected values. The rest are the
model's own choices, listed below.

Files:

- `types.dfy` (module `HCTypes`): the configuration (the five constants as a
  `Config` value), the states and their codes, the revert reasons, events and
  call outcomes.
- `confidence.dfy` (module `ConfidenceEngine`): the confidence ratio, the
  inclusive threshold test, and the lemmas that pin it down.
- `timegate.dfy` (module `TimeGate`): the pended-dwell test, the
  quiet-ending window and the winning decision.
- `ledger.dfy` (module `Ledger`): per-staker stake records and their ghost
  total.
- `proposal.dfy` (module `Proposals`): class `Proposal`, with mutable
  fields and `Stake`, `Unstake`, `Vote` and `Boost` methods. Each method
  takes the block time `now` and returns its events, or the reason it
  reverted with nothing changed. `Valid()` is the invariant every method
  keeps:
  - the totals equal the sums of the per-staker records;
  - while stakes can move, Pended holds exactly when the threshold is met;
  - an Unpended proposal has no pended date;
  - a Boosted proposal met the threshold and the pended dwell when it was
    boosted, and its lifetime is at least `BOOST_PERIOD_SECS`.

  `GetConfidence` and the fields stand for the read accessors
  (`getConfidence`, and `getProposalInfo` / `getProposalTimeInfo` at the
  indices the tests read).
- `scenarios.dfy` (module `BoostScenarios`): each test's call sequence
  replayed on the model. Times are explicit and the constants are
  parameters. Each test method's postcondition states at least what that
  test asserts. `SetupPended` and `SetupBoosted` are the shared set-up
  steps (the tests' `beforeEach` blocks), not tests.

Two behaviours follow the tests:

- A vote on a proposal that is not Boosted is accepted. The test at line 172
  votes on a Pended proposal and does not revert.
- The quiet-ending window is measured from the proposal's creation date. The
  tests count elapsed time from creation (lines 63 and 225), not from the
  boost.

The tests say nothing on the following points, so these are the model's
choices:

- A proposal returning to Unpended has its `lastPendedDate` cleared to 0.
- The lifetime is extended only for Boosted proposals.
- A tie in the vote tally counts as "against". So a vote that brings the votes
  against level with the votes for is a flip.
- Both time gates are inclusive. A boost is allowed once
  `now ≥ lastPendedDate + PENDED_BOOST_PERIOD_SECS`. The quiet-ending window
  is open once `now ≥ startDate + lifetime − QUIET_ENDING_PERIOD_SECS`.
- Unstaking more than the caller has staked on that side reverts with
  `NotEnoughStaked`, and nothing changes.
- A stake or unstake that moves a proposal between Unpended and Pended emits
  `ProposalStateChanged` with the new state code. The tests read only the
  boost's event.

`boostedDate` is set by a successful boost, and `Valid()` uses it to record
that the pended dwell had elapsed at boost time. No test reads it.

## Model

| member | source | states |
|---|---|---|
| HCTypes.StateCode | test/Boost.test.js:98-180 | state codes are 1 (Unpended), 2 (Pended), 3 (Boosted), all within 1..3 |
| ConfidenceEngine.Confidence | test/Boost.test.js:66-70 | defined exactly when there is downstake; then the value v is the floor of upstake·P/downstake: v·down ≤ up·P < (v+1)·down |
| ConfidenceEngine.MeetsThresholdIff | test/Boost.test.js:86-101 | pins down MeetsThreshold, the inclusive test Stake, Unstake and Boost branch on: for P > 0 it holds iff downstake > 0 and upstake ≥ CONFIDENCE_THRESHOLD_BASE × downstake (rounding never loses it) |
| ConfidenceEngine.ConfidenceOfMultiple | test/Boost.test.js:93-96 | an upstake of k × downstake has confidence exactly k × P (200/100 gives 2P, HOLDER_5/HOLDER_1 gives the threshold) |
| HCTypes.LabelsDistinct | test/Boost.test.js:74-214 | the revert reasons of Label (PROPOSAL_DOESNT_HAVE_ENOUGH_CONFIDENCE, PROPOSAL_HASNT_HAD_CONFIDENCE_ENOUGH_TIME, PROPOSAL_IS_BOOSTED) are pairwise distinct, so each failure kind is recognisable |
| Proposals.Proposal.GetConfidence | test/Boost.test.js:66-96 | getConfidence: defined exactly when there is downstake, and then the floor of upstake·P/downstake |
| TimeGate.PendedGateStaysOpen | test/Boost.test.js:128-163 | HasPendedLongEnough never closes as time passes: a boost refused for lack of time can succeed later |
| TimeGate.PendedGateBoundary | test/Boost.test.js:109-163 | HasPendedLongEnough is false at half a positive pended period and true once the whole period has passed |
| TimeGate.ExtensionMovesWindow | test/Boost.test.js:222-248 | QuietEndingWindowStart moves out by exactly the quiet period when the lifetime is extended; InQuietEndingWindow for the longer lifetime implies it for the shorter |
| TimeGate.HalfQuietPeriodBeforeEndInWindow | test/Boost.test.js:222-236 | InQuietEndingWindow holds at start + lifetime − QUIET_ENDING_PERIOD_SECS/2, the flip time of the tests |
| TimeGate.DecisionFlip | test/Boost.test.js:216-248 | Decision flips on a vote against exactly when the votes for were ahead and the weight brings the votes against level or ahead; on a vote for exactly when it puts the votes for strictly ahead from level or behind |
| ConfidenceEngine.MeetsThresholdMonotone | test/Boost.test.js:147-151 | more support, or less (but non-zero) opposition, keeps a met threshold |
| ConfidenceEngine.OpposingStakeBreaksExactThreshold | test/Boost.test.js:103-107 | a proposal exactly at the threshold falls below it after any added opposing stake |
| ConfidenceEngine.NoSupportMissesThreshold | test/Boost.test.js:141-145 | with no upstake the threshold is not met |
| Ledger.SumRemove | test/Boost.test.js:141-145 | the side total is one staker's record plus the total of the others, whichever staker is taken out |
| Ledger.SumUpdate | test/Boost.test.js:141-145 | changing one staker's record changes the side total by exactly the difference |
| Ledger.StakeOfAtMostSum | test/Boost.test.js:141-145 | no staker's record exceeds the side total, so withdrawing it never underflows |
| Proposals.Proposal.constructor | test/Boost.test.js:62-63 | createProposal: Unpended, zero stakes and votes, start date = creation time |
| Proposals.Proposal.ReevaluatePending | test/Boost.test.js:86-126 | after stakes move: Pended iff threshold met; entering Pended records now, leaving clears the date, staying keeps it; one ProposalStateChanged per actual change |
| Proposals.Proposal.Stake | test/Boost.test.js:103-126 | reverts with PROPOSAL_IS_BOOSTED exactly when Boosted, changing nothing; otherwise adds to one side's record and total, re-evaluates Pended, keeps Valid() |
| Proposals.Proposal.Unstake | test/Boost.test.js:141-145 | reverts (changing nothing) when Boosted or when the staker holds less than the amount on that side; otherwise subtracts, re-evaluates Pended, keeps Valid() |
| Proposals.Proposal.Vote | test/Boost.test.js:216-248 | adds the weight to one tally; lifetime grows by the quiet period, with a ProposalLifetimeExtended event, exactly when Boosted, the decision flips and now ≥ start + lifetime − quiet period; lifetime never decreases |
| Proposals.Proposal.Boost | test/Boost.test.js:128-193 | PROPOSAL_IS_BOOSTED, then not enough confidence (iff Unpended), then not enough pended time, else Boosted with lifetime = BOOST_PERIOD_SECS and ProposalStateChanged(id, 3); failures change nothing; success only from Pended |
| BoostScenarios.SetupPended | test/Boost.test.js:86-91 | 100 against then HOLDER_5 for makes the proposal Pended with pended date = stake time |
| BoostScenarios.ConfidenceIsAvailable | test/Boost.test.js:66-70 | 200 for and 100 against give confidence 2 × P |
| BoostScenarios.BoostWithoutStakes | test/Boost.test.js:74-79 | boosting with no stakes reverts with PROPOSAL_DOESNT_HAVE_ENOUGH_CONFIDENCE, at any time |
| BoostScenarios.ReachesConfidence | test/Boost.test.js:93-101 | confidence equals CONFIDENCE_THRESHOLD_BASE × P and the state code is 2 |
| BoostScenarios.OpposingStakeUnpends | test/Boost.test.js:135-139 | an added opposing stake (immediately or after half the period) gives state code 1 |
| BoostScenarios.WithdrawalUnpends | test/Boost.test.js:141-145 | holder 5 unstaking its whole support gives state code 1 |
| BoostScenarios.SupportKeepsPendedDate | test/Boost.test.js:117-151 | a further supporting stake keeps state code 2 and the recorded pended date |
| BoostScenarios.BoostTooEarly | test/Boost.test.js:128-133 | boosting after half the pended period reverts with PROPOSAL_HASNT_HAD_CONFIDENCE_ENOUGH_TIME |
| BoostScenarios.BoostAfterPeriod | test/Boost.test.js:153-163 | after the pended period and two hours more a boost succeeds, emitting ProposalStateChanged(0, 3) |
| BoostScenarios.SetupBoosted | test/Boost.test.js:170-176 | a vote on the Pended proposal is accepted and the boost that follows succeeds |
| BoostScenarios.BoostedProposal | test/Boost.test.js:178-193 | after boosting: state code 3, lifetime BOOST_PERIOD_SECS, event ProposalStateChanged(0, 3) |
| BoostScenarios.BoostedIsFrozen | test/Boost.test.js:195-214 | stake, unstake and boost on a Boosted proposal all revert with PROPOSAL_IS_BOOSTED; stakes and state unchanged |
| BoostScenarios.FlipBeforeQuietEnding | test/Boost.test.js:216-220 | a flip before the window leaves the lifetime at BOOST_PERIOD_SECS with no event |
| BoostScenarios.FlipInQuietEnding | test/Boost.test.js:222-248 | a flip at start + BOOST_PERIOD_SECS − QUIET_ENDING_PERIOD_SECS/2 sets the lifetime to BOOST_PERIOD_SECS + QUIET_ENDING_PERIOD_SECS and emits ProposalLifetimeExtended(0, that value) |

## Left out

- Token bookkeeping: balances, allowances, `generateTokens`, `approve`, and the transfer of staked tokens. Stake amounts and vote weights are inputs, and `stake` does not check the staker's balance.
- Per-voter vote records. Each `Vote` call adds its weight to one side. Revoting, and checks of a voter's voting power, are not modelled because the tests never exercise them.
- The compensation paid to the caller of a successful boost. The tests name it but never assert it.
- EVM time and block manipulation. Time is the explicit `now` parameter of every call, and the scenarios use the times implied by the tests' skips.
- `defaultSetup`, access control, and execution of the attached EVM script. These are outside the lifecycle.
- Proposal ids beyond a single proposal. The model has one proposal object with its id. Id allocation across proposals is not modelled.
- Resolution and expiry of Boosted proposals, and the state code 0. Neither is exercised by the tests.
- Confidence with downstake 0 but upstake > 0. The tests never exercise it, so the model gives no number: it reports the ratio as undefined and the threshold as not met. With no stakes at all, the result is the tested "not enough confidence".
- The pre-boost lifetime. It is a constructor parameter, because the tests never read it.
- The other indices of `getProposalInfo` and `getProposalTimeInfo`. Only state, lifetime and `lastPendedDate` are modelled.
- 256-bit wrap-around. The model uses unbounded integers, so overflow and the contract's safe-math reverts are not modelled.
- The tests' `PENDED_BOOST_PERIOD_SECS / 2` and `QUIET_ENDING_PERIOD_SECS / 2`. In JavaScript these can be fractional. The scenarios round half-periods down.
- BoostScenarios.SetupPended: the tests' stakes run in separate transactions a few seconds apart. The scenarios place them all at the creation time `t0`.
