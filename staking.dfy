/** The staking program: a pool, authority-created tiers (a lock duration and
    an APY in basis points), and one stake account per user and pool that
    accrues rewards linearly over its term and is settled by claims and a
    final unstake. Token movements are returned as amounts. */
module IamaiStaking {
  import opened Common

  const SecondsPerDay: nat := 24 * 60 * 60
  /** The accrual year: 365 days. */
  const SecondsPerYear: nat := 365 * SecondsPerDay

  /** The program's error codes. `InvalidStakingTier` is declared by the
      program but no instruction raises it. `AccountAlreadyInUse` is the
      failure of `init` on a stake account that already exists. */
  datatype Error =
    | StakeNotActive
    | StakingPeriodNotComplete
    | NoRewardsAvailable
    | InvalidStakingTier
    | AccountAlreadyInUse

  function Min(a: int, b: int): int
  {
    if a <= b then a else b
  }

  /** Seconds of accrual as of `now`: from the start, capped at the end. */
  function AccrualSeconds(startTime: int, endTime: int, now: int): (seconds: nat)
    requires startTime <= now && startTime <= endTime
    ensures seconds <= endTime - startTime
  {
    Min(now, endTime) - startTime
  }

  /** The total reward a stake of `amount` at `apyBasisPoints` has earned by
      `now`: `floor(amount * apy * elapsed / (10000 * SecondsPerYear))`. */
  function Earned(amount: nat, apyBasisPoints: nat, startTime: int, endTime: int, now: int): nat
    requires startTime <= now && startTime <= endTime
  {
    amount * apyBasisPoints * AccrualSeconds(startTime, endTime, now) / (BasisPointsPerUnit * SecondsPerYear)
  }

  /** Accrual never decreases as time goes on, and stops at the end of the term. */
  lemma EarnedNonDecreasing(amount: nat, apyBasisPoints: nat, startTime: int, endTime: int, t0: int, t1: int)
    requires startTime <= t0 <= t1 && startTime <= endTime
    ensures Earned(amount, apyBasisPoints, startTime, endTime, t0) <= Earned(amount, apyBasisPoints, startTime, endTime, t1)
    ensures endTime <= t0 ==> Earned(amount, apyBasisPoints, startTime, endTime, t0) == Earned(amount, apyBasisPoints, startTime, endTime, t1)
  {
    var e0, e1 := AccrualSeconds(startTime, endTime, t0), AccrualSeconds(startTime, endTime, t1);
    MulMonotone(amount * apyBasisPoints, e0, e1);
    DivMonotone(amount * apyBasisPoints * e0, amount * apyBasisPoints * e1, BasisPointsPerUnit * SecondsPerYear);
  }

  /** Nothing has been earned at the start of the term. */
  lemma EarnedAtStart(amount: nat, apyBasisPoints: nat, startTime: int, endTime: int)
    requires startTime <= endTime
    ensures Earned(amount, apyBasisPoints, startTime, endTime, startTime) == 0
  {
  }

  /** The staking pool account. `stakers` is not a field of the account: it
      records the users whose stake account for this pool has been created. */
  class StakingPool {
    const authority: Pubkey
    const tokenMint: Pubkey
    const vault: Pubkey
    const earlyUnstakePenalty: U16
    var totalStaked: nat
    var totalRewardsDistributed: nat
    const isInitialized: bool
    var stakers: set<Pubkey>

    /** `initialize_staking`. */
    constructor (authority: Pubkey, tokenMint: Pubkey, vault: Pubkey, earlyUnstakePenalty: U16)
      ensures this.authority == authority && this.tokenMint == tokenMint && this.vault == vault
      ensures this.earlyUnstakePenalty == earlyUnstakePenalty
      ensures totalStaked == 0 && totalRewardsDistributed == 0 && isInitialized
      ensures stakers == {}
    {
      this.authority := authority;
      this.tokenMint := tokenMint;
      this.vault := vault;
      this.earlyUnstakePenalty := earlyUnstakePenalty;
      totalStaked := 0;
      totalRewardsDistributed := 0;
      isInitialized := true;
      stakers := {};
    }
  }

  /** A staking tier account. Any signer can create one, for any pool. */
  class StakingTier {
    const pool: StakingPool
    const durationDays: U32
    const apyBasisPoints: U16
    var totalStaked: nat
    const isActive: bool

    /** `create_staking_tier`. */
    constructor (pool: StakingPool, durationDays: U32, apyBasisPoints: U16)
      ensures this.pool == pool && this.durationDays == durationDays && this.apyBasisPoints == apyBasisPoints
      ensures totalStaked == 0 && isActive
    {
      this.pool := pool;
      this.durationDays := durationDays;
      this.apyBasisPoints := apyBasisPoints;
      totalStaked := 0;
      isActive := true;
    }
  }

  /** A user's stake account. `settledAt` is the last instant at which the
      stake was settled against its own tier (created, claimed or unstaked). */
  class UserStake {
    const user: Pubkey
    const pool: StakingPool
    const tier: StakingTier
    const amount: nat
    const startTime: int
    const endTime: int
    var rewardsClaimed: nat
    var isActive: bool
    ghost var settledAt: int

    predicate Valid()
    {
      startTime <= endTime
    }

    /** The reward bookkeeping invariant: what has been paid is exactly what
        the stake had earned, at its own tier's APY, by the last settlement. */
    ghost predicate Settled()
      reads this
    {
      Valid() && startTime <= settledAt &&
      rewardsClaimed == Earned(amount, tier.apyBasisPoints, startTime, endTime, settledAt)
    }

    constructor (user: Pubkey, pool: StakingPool, tier: StakingTier, amount: nat, now: int)
      ensures this.user == user && this.pool == pool && this.tier == tier && this.amount == amount
      ensures startTime == now && endTime == now + tier.durationDays * SecondsPerDay
      ensures rewardsClaimed == 0 && isActive
      ensures Valid() && Settled() && settledAt == now
    {
      this.user := user;
      this.pool := pool;
      this.tier := tier;
      this.amount := amount;
      startTime := now;
      endTime := now + tier.durationDays * SecondsPerDay;
      rewardsClaimed := 0;
      isActive := true;
      settledAt := now;
      new;
      EarnedAtStart(amount, tier.apyBasisPoints, now, endTime);
    }
  }

  /** What a stake has earned at `tier`'s APY and not yet been paid
      (`calculate_rewards`). The subtraction is unchecked in the source, so the
      caller must ensure the reward earned covers what was claimed. */
  function CalculateRewards(stake: UserStake, tier: StakingTier, now: int): (pending: nat)
    reads stake
    requires stake.Valid() && stake.startTime <= now
    requires stake.rewardsClaimed <= Earned(stake.amount, tier.apyBasisPoints, stake.startTime, stake.endTime, now)
    ensures stake.rewardsClaimed + pending == Earned(stake.amount, tier.apyBasisPoints, stake.startTime, stake.endTime, now)
    ensures pending <= Earned(stake.amount, tier.apyBasisPoints, stake.startTime, stake.endTime, stake.endTime) - stake.rewardsClaimed
    ensures stake.Settled() && tier == stake.tier && now == stake.settledAt ==> pending == 0
  {
    EarnedNonDecreasing(stake.amount, tier.apyBasisPoints, stake.startTime, stake.endTime, Min(now, stake.endTime), stake.endTime);
    Earned(stake.amount, tier.apyBasisPoints, stake.startTime, stake.endTime, now) - stake.rewardsClaimed
  }

  /** A settled stake can always be settled again later: when time does not
      go backwards and the stake's own tier is used, the subtraction in
      `calculate_rewards` cannot underflow. */
  lemma SettledStakeCanSettle(stake: UserStake, now: int)
    requires stake.Settled() && stake.settledAt <= now
    ensures stake.rewardsClaimed <= Earned(stake.amount, stake.tier.apyBasisPoints, stake.startTime, stake.endTime, now)
  {
    EarnedNonDecreasing(stake.amount, stake.tier.apyBasisPoints, stake.startTime, stake.endTime, stake.settledAt, now);
  }

  /** The early-unstake penalty: a basis-point share of the principal before
      the end of the term, nothing at or after it. */
  function UnstakePenalty(amount: nat, penaltyBasisPoints: nat, endTime: int, now: int): (penalty: nat)
    ensures now >= endTime ==> penalty == 0
    ensures now < endTime ==> penalty == BasisPointShare(amount, penaltyBasisPoints)
    ensures penaltyBasisPoints <= BasisPointsPerUnit ==> penalty <= amount
  {
    if now < endTime then BasisPointShare(amount, penaltyBasisPoints) else 0
  }

  /** `stake_tokens`: creates the user's stake account for this pool (which
      fails if it exists) and locks `amount` for the tier's duration. The
      returned stake's amount is what is transferred into the vault. */
  method StakeTokens(pool: StakingPool, tier: StakingTier, user: Pubkey, amount: nat, now: int)
    returns (r: Result<UserStake, Error>)
    modifies pool`totalStaked, pool`stakers, tier`totalStaked
    ensures user in old(pool.stakers) ==>
              r == Err(AccountAlreadyInUse) &&
              pool.totalStaked == old(pool.totalStaked) && pool.stakers == old(pool.stakers) &&
              tier.totalStaked == old(tier.totalStaked)
    ensures user !in old(pool.stakers) ==>
              && r.Ok? && fresh(r.value)
              && r.value.user == user && r.value.pool == pool && r.value.tier == tier
              && r.value.amount == amount
              && r.value.startTime == now && r.value.endTime == now + tier.durationDays * SecondsPerDay
              && r.value.rewardsClaimed == 0 && r.value.isActive
              && r.value.Settled() && r.value.settledAt == now
              && pool.totalStaked == old(pool.totalStaked) + amount
              && tier.totalStaked == old(tier.totalStaked) + amount
              && pool.stakers == old(pool.stakers) + {user}
  {
    if user in pool.stakers {
      return Err(AccountAlreadyInUse);
    }
    var stake := new UserStake(user, pool, tier, amount, now);
    pool.stakers := pool.stakers + {user};
    pool.totalStaked := pool.totalStaked + amount;
    tier.totalStaked := tier.totalStaked + amount;
    r := Ok(stake);
  }

  /** `claim_rewards`: pays out the pending reward of an active stake. The
      tier passed in is not checked against the stake's own tier. */
  method ClaimRewards(pool: StakingPool, tier: StakingTier, stake: UserStake, now: int)
    returns (r: Result<nat, Error>)
    requires stake.Valid()
    requires stake.isActive ==>
               stake.startTime <= now &&
               stake.rewardsClaimed <= Earned(stake.amount, tier.apyBasisPoints, stake.startTime, stake.endTime, now)
    modifies pool`totalRewardsDistributed, stake`rewardsClaimed, stake`settledAt
    ensures !old(stake.isActive) ==> r == Err(StakeNotActive)
    ensures old(stake.isActive) ==>
              var pending := old(CalculateRewards(stake, tier, now));
              if pending == 0 then r == Err(NoRewardsAvailable)
              else r == Ok(pending) &&
                   stake.rewardsClaimed == old(stake.rewardsClaimed) + pending &&
                   pool.totalRewardsDistributed == old(pool.totalRewardsDistributed) + pending
    ensures r.Err? ==>
              stake.rewardsClaimed == old(stake.rewardsClaimed) && stake.settledAt == old(stake.settledAt) &&
              pool.totalRewardsDistributed == old(pool.totalRewardsDistributed)
    ensures r.Ok? && tier == stake.tier ==> stake.Settled() && stake.settledAt == now
  {
    if !stake.isActive {
      return Err(StakeNotActive);
    }
    var rewards := CalculateRewards(stake, tier, now);
    if rewards == 0 {
      return Err(NoRewardsAvailable);
    }
    pool.totalRewardsDistributed := pool.totalRewardsDistributed + rewards;
    stake.rewardsClaimed := stake.rewardsClaimed + rewards;
    stake.settledAt := now;
    r := Ok(rewards);
  }

  /** `unstake_tokens`: closes an active stake and returns the principal,
      less the penalty when leaving early, plus the pending reward (which is
      paid on early exit too). The result is the amount sent back to the user. */
  method UnstakeTokens(pool: StakingPool, tier: StakingTier, stake: UserStake, earlyUnstake: bool, now: int)
    returns (r: Result<nat, Error>)
    requires stake.Valid()
    requires stake.isActive && (now >= stake.endTime || earlyUnstake) ==>
               && stake.startTime <= now
               && stake.rewardsClaimed <= Earned(stake.amount, tier.apyBasisPoints, stake.startTime, stake.endTime, now)
               && (now < stake.endTime ==> pool.earlyUnstakePenalty <= BasisPointsPerUnit)
               && stake.amount <= pool.totalStaked && stake.amount <= tier.totalStaked
    modifies pool`totalStaked, pool`totalRewardsDistributed, tier`totalStaked
    modifies stake`isActive, stake`rewardsClaimed, stake`settledAt
    ensures !old(stake.isActive) ==> r == Err(StakeNotActive)
    ensures old(stake.isActive) && now < stake.endTime && !earlyUnstake ==> r == Err(StakingPeriodNotComplete)
    ensures r.Err? ==>
              && pool.totalStaked == old(pool.totalStaked) && tier.totalStaked == old(tier.totalStaked)
              && pool.totalRewardsDistributed == old(pool.totalRewardsDistributed)
              && stake.isActive == old(stake.isActive) && stake.rewardsClaimed == old(stake.rewardsClaimed)
              && stake.settledAt == old(stake.settledAt)
    ensures old(stake.isActive) && (now >= stake.endTime || earlyUnstake) ==>
              var pending := old(CalculateRewards(stake, tier, now));
              var penalty := UnstakePenalty(stake.amount, pool.earlyUnstakePenalty, stake.endTime, now);
              && r == Ok(stake.amount - penalty + pending)
              && !stake.isActive
              && stake.rewardsClaimed == old(stake.rewardsClaimed) + pending
              && pool.totalStaked == old(pool.totalStaked) - stake.amount
              && tier.totalStaked == old(tier.totalStaked) - stake.amount
              && pool.totalRewardsDistributed == old(pool.totalRewardsDistributed) + pending
    ensures r.Ok? && tier == stake.tier ==> stake.Settled() && stake.settledAt == now
  {
    if !stake.isActive {
      return Err(StakeNotActive);
    }
    if now < stake.endTime && !earlyUnstake {
      return Err(StakingPeriodNotComplete);
    }
    var penalty := UnstakePenalty(stake.amount, pool.earlyUnstakePenalty, stake.endTime, now);
    var amountToReturn := stake.amount - penalty;
    var rewards := CalculateRewards(stake, tier, now);
    amountToReturn := amountToReturn + rewards;

    pool.totalStaked := pool.totalStaked - stake.amount;
    tier.totalStaked := tier.totalStaked - stake.amount;
    pool.totalRewardsDistributed := pool.totalRewardsDistributed + rewards;

    stake.isActive := false;
    stake.rewardsClaimed := stake.rewardsClaimed + rewards;
    stake.settledAt := now;
    r := Ok(amountToReturn);
  }

  /** Claiming twice at the same instant: whatever the first claim does, the
      second finds nothing pending. */
  method ClaimTwiceAtSameInstant(pool: StakingPool, stake: UserStake, now: int)
    returns (first: Result<nat, Error>, second: Result<nat, Error>)
    requires stake.Settled() && stake.isActive && stake.settledAt <= now
    modifies pool`totalRewardsDistributed, stake`rewardsClaimed, stake`settledAt
    ensures second == Err(NoRewardsAvailable)
    ensures stake.rewardsClaimed == Earned(stake.amount, stake.tier.apyBasisPoints, stake.startTime, stake.endTime, now)
  {
    SettledStakeCanSettle(stake, now);
    first := ClaimRewards(pool, stake.tier, stake, now);
    second := ClaimRewards(pool, stake.tier, stake, now);
  }

  /** Staking and then unstaking the same stake restores both totals, and the
      closed stake can be neither claimed nor unstaked again. */
  method StakeThenUnstake(pool: StakingPool, tier: StakingTier, user: Pubkey, amount: nat, start: int, later: int)
    returns (r: Result<nat, Error>, claimAgain: Result<nat, Error>, unstakeAgain: Result<nat, Error>)
    requires user !in pool.stakers && start <= later
    requires later < start + tier.durationDays * SecondsPerDay ==> pool.earlyUnstakePenalty <= BasisPointsPerUnit
    modifies pool`totalStaked, pool`stakers, pool`totalRewardsDistributed, tier`totalStaked
    ensures pool.totalStaked == old(pool.totalStaked) && tier.totalStaked == old(tier.totalStaked)
    ensures r.Ok?
    ensures claimAgain == Err(StakeNotActive) && unstakeAgain == Err(StakeNotActive)
  {
    var created := StakeTokens(pool, tier, user, amount, start);
    var stake := created.value;
    SettledStakeCanSettle(stake, later);
    r := UnstakeTokens(pool, tier, stake, true, later);
    claimAgain := ClaimRewards(pool, tier, stake, later);
    unstakeAgain := UnstakeTokens(pool, tier, stake, true, later);
  }
}
