# IAMAI on-chain programs, modelled in Dafny

This project models the four Anchor (Solana) programs of the IAMAI DAO:

- **Staking** (`IamaiStaking`, `staking.dfy`). A pool has a configurable
  early-unstake penalty in basis points. Any signer can create a tier, which
  is a lock duration in days and an APY in basis points. Each user gets one
  stake account per pool. It accrues
  `floor(amount * apy * elapsed / (10000 * 31536000))` (a 365-day year), with
  `elapsed` capped at the end of the term. Claims pay the pending reward.
  Unstaking returns the principal. Before the end of the term it fails unless
  `early_unstake` is set, and then the principal is cut by the penalty. The
  pending reward is paid in both cases.
- **Marketplace** (`IamaiMarketplace`, `marketplace.dfy`). Listings have a
  fixed price. A purchase splits the price into a basis-point royalty for the
  treasury and the remainder for the creator. The treasury transfer is
  skipped when the royalty is zero. Each purchase records access and updates
  the sales statistics. Purchasers can each leave one 1–5 star rating. Only
  the listing's creator can switch it on and off.
- **Governance** (`IamaiGovernance`, `governance.dfy`). Proposals go
  Active → Passed/Rejected → Executed. Each voter casts one weighted vote,
  inside the voting window. Finalization happens after the window and checks
  quorum against a mock supply of 10^9. Execution waits until the
  execution time.
- **Token** (`IamaiToken`, `token.dfy`). Minting is capped by the total
  supply. Burning lowers the circulating supply. `transfer_with_fee` splits an
  amount into a 10 basis-point fee and the remainder.

`common.dfy` (`Common`) holds the parts shared by the programs:
- the `Result` of an instruction;
- the field widths `U8`, `U16` and `U32`;
- `BasisPointShare`, the `floor(x * bp / 10000)` used for the penalty, the
  royalty and the fee;
- `FeeSplitTransfers`, the fee-then-remainder transfer pair used by both the
  royalty split and the transfer fee.

Each account that an instruction updates in place is a class. Each record
that is written once and never changed (purchase record, review, vote
record) is a datatype. Each instruction is a method that takes the accounts
it touches and an explicit `now` for the clock. It returns the program's
error code or what it transfers. Its postconditions say, for every error
code, when that error occurs, and they give the complete new state on
success. When an instruction fails, it changes nothing.

Seeded `init` fails when the account already exists. The model captures
this with a collection on the parent object:
- `StakingPool.stakers` lists the users whose stake account exists;
- `ModelListing.purchases` and `ModelListing.reviews` hold the purchase
  records and reviews;
- `Proposal.votes` holds the vote records.

Adding to one of these collections when the key is already there fails with
`AccountAlreadyInUse`.

`UserStake` has a ghost `settledAt`. `Settled()` is the invariant that
`rewards_claimed` equals what the stake has earned by `settledAt`.

A few facts about the staking code shape the model:
- tiers are created one at a time by any signer, with no minimum amount;
- the year is 365 days of 86400 seconds;
- the early-unstake penalty is a pool parameter in basis points;
- an early exit still pays the pending reward;
- there is no version counter or retry layer;
- the totals are counters updated in place by each instruction.

## Model

| member | source | states |
|---|---|---|
| `Common.BasisPointShare` | contracts/token/src/lib.rs:61 | the share is the floor of `amount*bp/10000` (bracketed between multiples of 10000); it is at most `amount` when `bp ≤ 10000`, and zero when either factor is zero |
| `Common.FeeSplitTransfers` | iamai-dao/contracts/marketplace/src/lib.rs:73-96 | the transfers add up to exactly the amount; the fee transfer comes first and is present exactly when the fee is non-zero; the remainder `amount - fee` goes to the main account |
| `IamaiStaking.StakingPool.constructor` | iamai-dao/contracts/staking/lib.rs:10-23 | the pool keeps the given authority, mint, vault and penalty, and both totals start at zero |
| `IamaiStaking.StakingTier.constructor` | iamai-dao/contracts/staking/lib.rs:25-37 | the tier keeps its pool, duration and APY, starts with zero staked and is active |
| `IamaiStaking.UserStake.constructor` | iamai-dao/contracts/staking/lib.rs:50-60 | `end_time = start_time + duration_days*86400`, nothing claimed, active, and the stake starts settled |
| `IamaiStaking.AccrualSeconds` | iamai-dao/contracts/staking/lib.rs:178 | the accrual time `min(now, end_time) - start_time` is never negative and never more than the term |
| `IamaiStaking.EarnedNonDecreasing` | iamai-dao/contracts/staking/lib.rs:178-182 | for `now ≥ start_time`, earned reward never decreases as `now` grows, and it is constant once `now ≥ end_time` |
| `IamaiStaking.EarnedAtStart` | iamai-dao/contracts/staking/lib.rs:178-182 | nothing has been earned at `start_time` |
| `IamaiStaking.CalculateRewards` | iamai-dao/contracts/staking/lib.rs:173-185 | pending plus claimed equals earned; pending never exceeds what remains of the full term's reward; a settled stake has nothing pending at its settlement instant |
| `IamaiStaking.SettledStakeCanSettle` | iamai-dao/contracts/staking/lib.rs:184 | if `rewards_claimed` is what was earned at the last settlement and time has not gone back, the subtraction `earned - rewards_claimed` cannot underflow |
| `IamaiStaking.UnstakePenalty` | iamai-dao/contracts/staking/lib.rs:92-99 | before `end_time` the penalty is `floor(amount*penalty_bp/10000)`; at or after `end_time` it is 0; it never exceeds the principal when `penalty_bp ≤ 10000` |
| `IamaiStaking.StakeTokens` | iamai-dao/contracts/staking/lib.rs:39-77 | the call fails with `AccountAlreadyInUse` if the user's stake account exists; otherwise it creates the stake with end time, zero claimed and active set, and adds exactly `amount` to both the pool total and the tier total |
| `IamaiStaking.ClaimRewards` | iamai-dao/contracts/staking/lib.rs:135-170 | the call fails with `StakeNotActive` if the stake is closed, and with `NoRewardsAvailable` if nothing is pending; otherwise it adds the pending amount to `rewards_claimed` and to `total_rewards_distributed`, returns that amount, and, when the tier passed is the stake's own, leaves the stake settled; on error nothing changes |
| `IamaiStaking.UnstakeTokens` | iamai-dao/contracts/staking/lib.rs:79-133 | the call fails with `StakeNotActive` if the stake is closed, and with `StakingPeriodNotComplete` before the end without the early flag; otherwise it returns `amount - penalty + pending`, closes the stake, adds pending to claimed and distributed, and subtracts the stake's amount from both totals |
| `IamaiStaking.ClaimTwiceAtSameInstant` | iamai-dao/contracts/staking/lib.rs:140-150 | a second claim at the same instant fails with `NoRewardsAvailable`, and the claimed amount then equals what was earned by that instant |
| `IamaiStaking.StakeThenUnstake` | iamai-dao/contracts/staking/lib.rs:63-113 | after a stake and then an unstake, both totals are back to their values before the stake; a claim or unstake after that fails with `StakeNotActive` |
| `IamaiMarketplace.Marketplace.constructor` | iamai-dao/contracts/marketplace/src/lib.rs:10-24 | the marketplace keeps the given keys and royalty, and all counters start at zero |
| `IamaiMarketplace.ModelListing.constructor` | iamai-dao/contracts/marketplace/src/lib.rs:39-52 | the listing keeps creator, price and type; its counters and rating are zero; it is active; its invariant holds |
| `IamaiMarketplace.ListModel` | iamai-dao/contracts/marketplace/src/lib.rs:26-58 | the call creates a fresh listing with zero counters and rating, active, and increments `total_models` by 1 |
| `IamaiMarketplace.PurchaseModel` | iamai-dao/contracts/marketplace/src/lib.rs:60-112 | the call fails with `AccountAlreadyInUse` if the buyer's purchase record exists, and with `ModelNotActive` if the listing is inactive; on error nothing changes; otherwise it transfers the royalty split of the price, records `price_paid = price` with access, adds 1 to both sales counts and `price` to both revenue and volume, and keeps the listing invariant |
| `IamaiMarketplace.RateModel` | iamai-dao/contracts/marketplace/src/lib.rs:114-140 | the call fails for a missing purchase record, then for an existing review, then with `InvalidRating` outside 1..5, then with `NoAccessToModel`; on success it stores the review, adds `rating` to `rating_sum` and 1 to `rating_count`, and keeps `count ≤ sum ≤ 5*count` and `rating_sum` equal to the sum of the stored reviews' stars |
| `IamaiMarketplace.UpdateModelStatus` | iamai-dao/contracts/marketplace/src/lib.rs:142-155 | a signer other than the creator fails with `Unauthorized` and changes nothing; the creator sets `is_active` and nothing else changes |
| `IamaiMarketplace.GetModelAccess` | iamai-dao/contracts/marketplace/src/lib.rs:157-162 | the call returns the record's `has_access`; on a valid listing it returns true exactly for buyers who have purchased |
| `IamaiMarketplace.PurchaseTwice` | iamai-dao/contracts/marketplace/src/lib.rs:210-216 | a second purchase by the same buyer fails with `AccountAlreadyInUse`, so the sale is counted once |
| `IamaiMarketplace.AverageRatingInRange` | iamai-dao/contracts/marketplace/src/lib.rs:136-137 | the rating invariant keeps the average rating between 1 and 5 |
| `Common.MapSumInsert` | iamai-dao/contracts/governance/src/lib.rs:99-112 | adding a record under a new key adds exactly its weight to the sum over the map; this is how each vote and each review moves its counter |
| `Common.MapSumAdd` | iamai-dao/contracts/governance/src/lib.rs:107-112 | summing two weights separately equals summing their sum, so the for and against tallies add up to the total power |
| `IamaiGovernance.TotalIsAllVotingPower` | iamai-dao/contracts/governance/src/lib.rs:99-112 | on a valid proposal, `total_votes` is the voting power of all its vote records |
| `IamaiGovernance.RequiredQuorum` | iamai-dao/contracts/governance/src/lib.rs:135-136 | the quorum is `quorum_percentage * 10^7`, and it is at most the mock supply when the percentage is at most 100 |
| `IamaiGovernance.TerminalStatusIsFinal` | iamai-dao/contracts/governance/src/lib.rs:141-183 | no sequence of legal status steps leaves Rejected or Executed |
| `IamaiGovernance.Governance.constructor` | iamai-dao/contracts/governance/src/lib.rs:10-25 | the governance account keeps its parameters, and `proposal_count` starts at 0 |
| `IamaiGovernance.Proposal.constructor` | iamai-dao/contracts/governance/src/lib.rs:47-60 | the proposal starts with zero votes, Active status, no quorum and `end_time = now + voting_period` |
| `IamaiGovernance.CreateProposal` | iamai-dao/contracts/governance/src/lib.rs:27-66 | the call fails with `InsufficientTokensForProposal` when the balance is below the minimum; otherwise it creates the initial proposal and increments `proposal_count` |
| `IamaiGovernance.VoteOnProposal` | iamai-dao/contracts/governance/src/lib.rs:68-115 | the errors come in source order (existing record, not Active, outside `[start,end]`, power above balance), and the call succeeds exactly when none applies; on success it adds the power to for or against, and always to the total; `total == for + against` is kept, and for and against stay the sums of the vote records' power on each side |
| `IamaiGovernance.FinalizeProposal` | iamai-dao/contracts/governance/src/lib.rs:117-149 | the call fails with `ProposalNotActive` unless the proposal is Active, and with `VotingPeriodNotEnded` unless `now > end_time`; otherwise it sets `quorum_reached` from total votes and the required quorum; the outcome is Passed, with `execution_time = now + delay`, exactly when quorum is reached and for > against, and Rejected otherwise |
| `IamaiGovernance.ExecuteProposal` | iamai-dao/contracts/governance/src/lib.rs:151-185 | the call fails with `ProposalNotPassed` unless the proposal has Passed, and with `ExecutionDelayNotMet` before `execution_time`; otherwise it sets Executed and takes only a legal status step |
| `IamaiGovernance.NoVoteAfterFinalize` | iamai-dao/contracts/governance/src/lib.rs:85-132 | after a successful finalization, a vote fails at any time and does not change the tally |
| `IamaiToken.TokenInfo.constructor` | contracts/token/src/lib.rs:10-29 | the circulating supply starts at 0 and the transfer fee at 10 basis points |
| `IamaiToken.TokenInfo.MintTokens` | contracts/token/src/lib.rs:31-54 | the call fails with `ExceedsMaxSupply` exactly when `circulating + amount > total`, and then changes nothing; otherwise it adds `amount`; `circulating ≤ total` is kept |
| `IamaiToken.TokenInfo.BurnTokens` | contracts/token/src/lib.rs:89-106 | the call subtracts `amount` from the circulating supply and keeps `circulating ≤ total` |
| `IamaiToken.TokenInfo.TransferWithFee` | contracts/token/src/lib.rs:56-87 | the fee and the remainder add up to the amount; the fee transfer is present exactly when the fee is non-zero, which at 10 basis points means exactly `amount ≥ 1000`; no field changes |
| `IamaiToken.FeeVanishesBelow1000` | contracts/token/src/lib.rs:61-65 | at 10 basis points the fee is zero exactly for amounts below 1000 |

## Left out

- Token movements by the token program (`token::transfer`, `mint_to`,
  `burn`) are modelled as returned amounts or `Transfer` sequences. Failures
  of those calls, such as an insufficient balance, are not modelled.
- Vault signer seeds and bumps, address derivation, rent, space and
  `declare_id!` are framework plumbing. Anchor's account validation is also
  left out, except that a seeded `init` fails when the account exists. The
  check that the stake passed to claim and unstake is the signer's own is
  not modelled either.
- `Clock::get()` is replaced by the `now` parameter.
- The `msg!` logging in `execute_proposal` is output only.
- String fields (title, description, IPFS hash, review text, token name and
  symbol) are opaque payload with no logic on them.
- u64/i64 overflow is not modelled. Amounts are unbounded naturals, and so
  is the u128-to-u64 truncation in `calculate_rewards`. There are
  preconditions where an unchecked subtraction could underflow:
  - the penalty, royalty or fee basis points are above 10000;
  - `earned - rewards_claimed`;
  - `total_staked - amount`;
  - `circulating_supply - amount`.
- IamaiStaking.CalculateRewards: the model requires `now ≥ start_time`. A
  negative elapsed time is cast to u128 in the source and gives a
  meaningless value.
- Concurrency is left out, because the runtime serialises transactions on
  writable accounts.
- The source makes no check that a tier belongs to its pool, that a tier is
  active, that the tier passed to claim or unstake is the stake's own, that
  the tier's creator is the pool authority, or that the treasury and creator
  token accounts match the marketplace and the listing. The model adds none
  of these checks. `tier_index` is unused.
- The token balances that governance checks, for proposing and for voting,
  are taken as parameters. They are the amount of whatever token account is
  passed in, because the source ties that account neither to the signer nor
  to the governance mint.
- The `AlreadyVoted` guard never fires. The vote record is created by the
  same instruction, so its `has_voted` is always false when it is read. A
  repeated vote fails earlier, when the vote record is created.
- `StakingPool.totalStaked`, `Marketplace.totalSales` and
  `Marketplace.totalVolume` are not shown to equal sums over all stakes or
  listings. The model has no collection of all stakes or listings to sum
  over. (A proposal's tally and a listing's `rating_sum` are tied to the
  records they hold.)
- `InvalidStakingTier`, `InsufficientFunds`, `NotInitialized` and
  `Unauthorized` (token program) are declared but never raised. They appear
  in the error types only.
