/** Runs of farm-staking with its boosted rewards. */
module BoostedRuns {
  import opened Chain
  import opened Wrappers
  import opened Arith
  import opened RewardSlices
  import opened Units
  import opened EnergyLedger
  import opened FarmTokens
  import opened FarmBooks
  import opened FarmStaking
  import opened FarmAmounts
  import opened BoostedFactors
  import opened BoostedPayouts
  import opened BoostedYields
  import opened WeeklyEnergyBooks
  import opened WeeklyRewards
  import opened BoostedStaking

  /** A stake that earns one unit per block at the least annual percentage. */
  const STAKE: nat := 52_560_000_000

  const BLOCKS_IN_WEEK: nat := 100_800

  const STAKER: Address := 7

  const OTHER: Address := 8

  lemma NothingBrought(base: Attributes)
    requires base.currentFarmAmount > 0
    ensures StakesOf([]) == multiset{} == OwnersOf([]) && |StakesOf([])| == 0 && MergedAll(base, [], 0) == base
  {
  }

  lemma OneRewardDue(maxRemaining: nat)
    requires maxRemaining >= 1
    ensures NewRewards(1, 1, STAKE, 1, maxRemaining) == 1
  {
    assert AmountAprBounded(STAKE, 1) == 1;
  }

  lemma NothingAccrues(d: Accrual, b: Books, constant: nat, boostedPercentage: nat)
    requires IsAccrual(d, 0, b.farmTokenSupply, constant, boostedPercentage) && constant > 0
    ensures Accrued(b, d) == b
  {
    if b.farmTokenSupply > 0 {
      FloorExact(d.increase, d.base * constant, b.farmTokenSupply);
    }
  }

  lemma AllBoosted(d: Accrual, total: nat, farmTokenSupply: int, constant: nat)
    requires IsAccrual(d, total, farmTokenSupply, constant, MAX_PERCENT) && constant > 0
    ensures d.boosted == d.total == total && d.base == 0 == d.increase
  {
    if farmTokenSupply > 0 {
      FloorExact(d.increase, d.base * constant, farmTokenSupply);
    }
  }

  lemma NothingPaid(b: Books)
    ensures Paid(b, 0, 0) == b
  {
  }

  lemma NothingDue(b: BoostedFarm)
    requires b.farm.Valid() && b.farm.blockNonce <= b.farm.lastRewardBlockNonce
    ensures b.farm.RewardDue() == 0
  {
  }

  const ENERGY := EnergyEntry(100, 0, 1)

  /** The first week, with one staker and no configuration. */
  ghost predicate IsStaked(b: BoostedFarm, books: Books)
    reads b, b.farm, b.weeks, b.weeks.splitting
  {
    && b.Valid() && b.CurrentWeek() == 1 && b.weeks.log == [] && b.farm.Stored() == books
    && b.farm.divisionSafetyConstant == 1
    && b.Users() == map[STAKER := ClaimProgress(1, ENERGY)] && b.weeks.splitting.lastGlobalUpdateWeek == 1
    && b.weeks.farmSupplyForWeek == map[1 := STAKE] && b.farm.owners == Exchanged(multiset{}, multiset{}, STAKE, STAKER)
  }

  method StakedFarm() returns (b: BoostedFarm)
    ensures fresh(b) && fresh(b.farm) && fresh(b.weeks) && fresh(b.weeks.splitting)
    ensures IsStaked(b, Books(STAKE, 0, 0, 0, 0, 0, 0)) && b.farm.blockNonce <= b.farm.lastRewardBlockNonce
  {
    hide BooksOk, PositionsOk, AmountsOk, FarmBoostedYields.Valid, NewRewards, IsAccrual, Accrued, Paid, MergedAll,
         Exchanged;
    b := new BoostedFarm(1, 1);
    NothingBrought(Attributes(0, 0, STAKE, STAKER));
    NothingDue(b);
    ghost var due: Accrual;
    var token, reward;
    ghost var empty := b.farm.Stored();
    token, reward, due := b.StakeFarm(STAKER, STAKE, [], ENERGY);
    NothingPaid(empty);
    NothingAccrues(due, empty, 1, 0);
  }

  /** All rewards are boosted. */
  method BoostedOnlyFarm() returns (b: BoostedFarm)
    ensures fresh(b) && fresh(b.farm) && fresh(b.weeks) && fresh(b.weeks.splitting)
    ensures IsStaked(b, Books(STAKE, 0, 0, 0, 0, 0, 0)) && b.farm.blockNonce <= b.farm.lastRewardBlockNonce
    ensures b.farm.maxAnnualPercentageRewards == 1 && b.farm.boostedYieldsRewardsPercentage == MAX_PERCENT
    ensures b.farm.rewardCapacity >= 1
  {
    hide BooksOk, PositionsOk, BoostedFarm.Valid, NewRewards, IsAccrual, Accrued, Exchanged;
    b := StakedFarm();
    ghost var staked := b.farm.Stored();
    b.TopUpRewards(1);
    ghost var due: Accrual;
    ghost var percentage := b.farm.boostedYieldsRewardsPercentage;
    var ok;
    NoneDue(b);
    ok, due := b.SetMaxApr(1);
    NothingAccrues(due, staked, 1, percentage);
    NoneDue(b);
    ok, due := b.SetBoostedYieldsRewardsPercentage(MAX_PERCENT);
    NothingAccrues(due, staked, 1, percentage);
  }

  /** One block before its first reward. */
  method ProducingFarm() returns (b: BoostedFarm)
    ensures fresh(b) && fresh(b.farm) && fresh(b.weeks) && fresh(b.weeks.splitting)
    ensures IsStaked(b, Books(STAKE, 0, 0, 0, 0, 0, 0)) && b.farm.blockNonce == b.farm.lastRewardBlockNonce
    ensures b.farm.maxAnnualPercentageRewards == 1 && b.farm.boostedYieldsRewardsPercentage == MAX_PERCENT
    ensures b.farm.rewardCapacity >= 1
    ensures b.farm.produceRewardsEnabled && b.farm.perBlockRewardAmount == 1
  {
    hide BooksOk, PositionsOk, BoostedFarm.Valid, NewRewards, IsAccrual, Accrued, Exchanged;
    b := BoostedOnlyFarm();
    ghost var staked := b.farm.Stored();
    ghost var due: Accrual;
    var ok;
    NoneDue(b);
    ok, due := b.SetPerBlockRewards(1);
    NothingAccrues(due, staked, 1, MAX_PERCENT);
    NoneDue(b);
    due := b.EndProduceRewards();
    NothingAccrues(due, staked, 1, MAX_PERCENT);
    ok := b.StartProduceRewards();
  }

  /** One unit of rewards is set aside for the first week. */
  method RewardedFarm() returns (b: BoostedFarm)
    ensures fresh(b) && fresh(b.farm) && fresh(b.weeks) && fresh(b.weeks.splitting)
    ensures IsStaked(b, Books(STAKE, 1, 0, 1, 1, 0, 0)) && b.farm.blockNonce <= b.farm.lastRewardBlockNonce
  {
    hide BooksOk, PositionsOk, BoostedFarm.Valid, NewRewards, IsAccrual, Accrued, Exchanged;
    b := ProducingFarm();
    ghost var staked := b.farm.Stored();
    b.AdvanceBlock(b.farm.blockNonce + 1);
    OneDue(b);
    ghost var due: Accrual;
    var ok;
    ok, due := b.SetPerBlockRewards(1);
    AllBoosted(due, 1, STAKE, 1);
    OneAccrued(staked, due);
  }

  lemma NoneDue(b: BoostedFarm)
    requires b.Valid() && b.farm.blockNonce <= b.farm.lastRewardBlockNonce
    ensures b.farm.RewardDue() == 0
  {
    NothingDue(b);
  }

  lemma OneDue(b: BoostedFarm)
    requires IsStaked(b, Books(STAKE, 0, 0, 0, 0, 0, 0)) && b.farm.blockNonce == b.farm.lastRewardBlockNonce + 1
    requires b.farm.maxAnnualPercentageRewards == 1 && b.farm.perBlockRewardAmount == 1 && b.farm.produceRewardsEnabled
    requires b.farm.rewardCapacity >= 1
    ensures b.farm.RewardDue() == 1
  {
    hide NewRewards, PositionsOk, AmountsOk, FarmBoostedYields.Valid;
    OneRewardDue(b.farm.rewardCapacity - b.farm.accumulatedRewards);
  }

  lemma OneAccrued(b: Books, d: Accrual)
    requires b == Books(STAKE, 0, 0, 0, 0, 0, 0) && d == Accrual(1, 0, 1, 0)
    ensures Accrued(b, d) == Books(STAKE, 1, 0, 1, 1, 0, 0)
  {
  }

  // ---- The claim for the first week ----

  const FACTORS := BoostedYieldsFactors(10, 1, 1, 1, 1)

  const CLAIM := WeekClaim(1, 100, 100)

  ghost predicate IsWeekOne(s: WeekState) {
    s.energy == 100 && s.farmSupply == STAKE && s.taken == 1 && s.paid == 0
  }

  lemma WeekOne(b: BoostedFarm)
    requires IsStaked(b, Books(STAKE, 1, 0, 1, 1, 0, 0))
    ensures IsWeekOne(b.weeks.StateOf(1))
  {
    hide BooksOk, PositionsOk, AmountsOk, SpentCovers, WeekBooksOk, SpentOk, FarmBoostedYields.CountersOk,
         FarmBoostedYields.BoostedOwed, StakingFarm.Valid;
    b.weeks.FirstWeek();
    b.weeks.splitting.TotalEnergyIsSum();
    OnlyOne(EnergyIn(1), STAKER, ClaimProgress(1, ENERGY));
  }

  /** In the second week the staker claims the first one. */
  ghost predicate CanClaimWeekOne(b: BoostedFarm)
    reads b.weeks, b.weeks.splitting
  {
    && b.CurrentWeek() == 2 && STAKER in b.Users() && b.Users()[STAKER] == ClaimProgress(1, ENERGY)
    && IsWeekOne(b.weeks.StateOf(1)) && |b.weeks.log| == 1 && b.weeks.log[0].factors == FACTORS
  }

  lemma OneClaim(b: BoostedFarm)
    requires CanClaimWeekOne(b)
    ensures b.UserClaims(STAKER) == [CLAIM]
    ensures b.BoostedReward(STAKER) == b.weeks.EarnedIn(CLAIM, b.PositionOf(STAKER))
    ensures b.CanClaim(STAKER) <==> b.weeks.Succeeds(CLAIM, b.PositionOf(STAKER))
  {
    hide Position, ClaimSucceeds, Earned;
    assert EnergyAt(ClaimProgress(1, ENERGY), 1) == 100;
    assert b.UserClaims(STAKER) == [CLAIM];
    assert [CLAIM][..|[CLAIM]| - 1] == [];
    assert b.weeks.EarnedSum([CLAIM], b.PositionOf(STAKER)) == b.weeks.EarnedIn(CLAIM, b.PositionOf(STAKER));
  }

  lemma RewardIsOne(s: WeekState)
    requires IsWeekOne(s)
    ensures ClaimSucceeds(s, FACTORS, 1, 2, Claim(100, STAKE)) && Earned(s, FACTORS, Claim(100, STAKE)) == 1
  {
    assert UserReward(WeekTotals(1, 100, STAKE), FACTORS, Claim(100, STAKE)) == 1;
  }

  lemma RewardIsTwo(s: WeekState)
    requires IsWeekOne(s)
    ensures !ClaimSucceeds(s, FACTORS, 1, 2, Claim(100, 3 * STAKE))
  {
    assert UserReward(WeekTotals(1, 100, STAKE), FACTORS, Claim(100, 3 * STAKE)) == 2;
  }

  lemma OwnsStake(b: BoostedFarm)
    requires IsStaked(b, b.farm.Stored())
    ensures b.PositionOf(STAKER) == STAKE
  {
    hide BooksOk, AmountsOk, FarmBoostedYields.Valid;
    assert b.farm.owners[STAKER] == STAKE;
  }

  /** A run that loses a deduction: a reward accrues, its week ends, it is claimed as a boosted reward the week owes,
      and the reserve goes on counting it. */
  method LostDeduction() returns (b: BoostedFarm)
    ensures b.Valid() && b.farm.paidOut == 1 && b.farm.rewardReserve == b.farm.accumulatedRewards
  {
    hide BooksOk, PositionsOk, BoostedFarm.Valid, NewRewards, IsAccrual, Exchanged, ClaimSucceeds, Earned,
         FarmBoostedYields.StateOf;
    b := RewardedFarm();
    WeekOne(b);
    OwnsStake(b);
    var ok := b.SetBoostedYieldsFactors(FACTORS);
    b.AdvanceWeek(2);
    b.AdvanceBlock(b.farm.blockNonce + BLOCKS_IN_WEEK);
    OneClaim(b);
    RewardIsOne(b.weeks.StateOf(1));
    ghost var due;
    var r;
    r, due := b.ClaimBoostedRewards(STAKER, ENERGY);
  }

  lemma MintedStakes(stakes: multiset<nat>, owners: multiset<Address>, p: FarmPayment)
    requires p.amount == p.attributes.currentFarmAmount > 0
    ensures Payable([p])
    ensures StakesOf([p]) <= Exchanged(stakes, multiset{}, p.amount, p.attributes.rewardPerShare)
    ensures OwnersOf([p]) <= Exchanged(owners, multiset{}, p.amount, p.attributes.originalOwner)
    ensures OwnersOf([p]) == Pile(p.amount, p.attributes.originalOwner) && |StakesOf([p])| == p.amount
  {
    OneToken(p);
  }

  lemma NowOwns(owners: multiset<Address>, amount: nat)
    requires owners == Exchanged(Exchanged(Exchanged(multiset{}, multiset{}, STAKE, STAKER), multiset{}, amount, OTHER),
                                 Pile(amount, OTHER), amount, STAKER)
    ensures owners[STAKER] == STAKE + amount
  {
  }

  /** The second week: the staker was given the tokens of another user, and nothing was configured yet. */
  ghost predicate IsGiven(b: BoostedFarm)
    reads b, b.farm, b.weeks, b.weeks.splitting
  {
    && b.Valid() && b.CurrentWeek() == 2 && b.weeks.log == [] && b.Users() == map[STAKER := ClaimProgress(1, ENERGY)]
    && IsWeekOne(b.weeks.StateOf(1)) && 1 in b.weeks.farmSupplyForWeek && b.weeks.farmSupplyForWeek[1] == STAKE
    && b.farm.owners[STAKER] == 3 * STAKE
  }

  method OtherStaked() returns (b: BoostedFarm, token: FarmPayment)
    ensures fresh(b) && fresh(b.farm) && fresh(b.weeks) && fresh(b.weeks.splitting)
    ensures b.Valid() && b.CurrentWeek() == 2 && b.weeks.log == []
    ensures b.Users() == map[STAKER := ClaimProgress(1, ENERGY)]
    ensures IsWeekOne(b.weeks.StateOf(1)) && 1 in b.weeks.farmSupplyForWeek && b.weeks.farmSupplyForWeek[1] == STAKE
    ensures b.farm.owners == Exchanged(Exchanged(multiset{}, multiset{}, STAKE, STAKER), multiset{}, 2 * STAKE, OTHER)
    ensures Payable([token]) && StakesOf([token]) <= b.farm.stakes && OwnersOf([token]) <= b.farm.owners
    ensures OwnersOf([token]) == Pile(2 * STAKE, OTHER) && |StakesOf([token])| == 2 * STAKE
  {
    hide BooksOk, PositionsOk, BoostedFarm.Valid, NewRewards, IsAccrual, Exchanged, FarmBoostedYields.StateOf,
         MergedAll, StakesOf, OwnersOf, Pile;
    b := RewardedFarm();
    WeekOne(b);
    b.AdvanceWeek(2);
    ghost var due: Accrual;
    ghost var stakes, owners := b.farm.stakes, b.farm.owners;
    var r, reward;
    NothingBrought(Attributes(0, 0, 2 * STAKE, OTHER));
    r, reward, due := b.StakeFarm(OTHER, 2 * STAKE, [], EnergyEntry(0, 0, 0));
    NothingBrought(Attributes(b.farm.rewardPerShare, 0, 2 * STAKE, OTHER));
    token := r.value;
    MintedStakes(stakes, owners, token);
  }

  method GivenFarm() returns (b: BoostedFarm)
    ensures fresh(b) && fresh(b.farm) && fresh(b.weeks) && fresh(b.weeks.splitting) && IsGiven(b)
  {
    hide BooksOk, PositionsOk, BoostedFarm.Valid, Exchanged, FarmBoostedYields.StateOf, MergedAll, StakesOf, OwnersOf,
         Pile;
    var token;
    b, token := OtherStaked();
    var r := b.MergeFarmTokens(STAKER, [token], ENERGY);
    NowOwns(b.farm.owners, 2 * STAKE);
  }

  lemma TooMuchHeld(b: BoostedFarm)
    requires IsGiven(b)
    ensures b.PositionOf(STAKER) == 3 * STAKE
    ensures 1 !in WithinSupply(b.weeks.farmSupplyForWeek, b.farm.userTotalFarmPosition, b.Users(), 2)
  {
    hide BooksOk, AmountsOk, FarmBoostedYields.Valid;
    var held := Held(b.farm.userTotalFarmPosition, b.Users(), 1);
    SumRemove(held, STAKER);
  }

  /** A run that takes a claim beyond the farm supply of its week, though not beyond the energy: before the first
      configuration the staker is given tokens that were staked after the week. The claim fails. */
  method ClaimBeyondSupply() returns (b: BoostedFarm, r: Result<nat>)
    ensures b.Valid() && r == Failure && 1 !in b.early
    ensures b.weeks.StateOf(1).energy == 100 && b.weeks.StateOf(1).farmSupply == STAKE
    ensures b.PositionOf(STAKER) == 3 * STAKE
  {
    hide BooksOk, PositionsOk, BoostedFarm.Valid, ClaimSucceeds, Earned, FarmBoostedYields.StateOf, WithinSupply;
    b := GivenFarm();
    TooMuchHeld(b);
    var ok := b.SetBoostedYieldsFactors(FACTORS);
    OneClaim(b);
    RewardIsTwo(b.weeks.StateOf(1));
    ghost var due;
    r, due := b.ClaimBoostedRewards(STAKER, ENERGY);
  }

  /** A week's rewards that no one claims: the sweep of the week finds nothing, and they stay where they are. */
  method RewardsStranded(rewards: nat) returns (farm: FarmBoostedYields)
    requires rewards > 0
    ensures fresh(farm) && farm.Valid() && farm.lastUndistributedBoostedRewardsCollectWeek == 1
    ensures At(farm.accumulatedRewardsForWeek, 1) == rewards == farm.BoostedOwed()
    ensures farm.undistributedBoostedRewards == 0
  {
    hide WeekOk, Represents, WeekBooksOk, SpentOk, SpentCovers;
    farm := new FarmBoostedYields();
    var ok := farm.SetBoostedYieldsRewardsPercentage(MAX_PERCENT);
    var base, boosted := farm.TakeRewardSlice(rewards);
    farm.AdvanceWeek(1 + COLLECT_REWARDS_OFFSET);
    assert farm.StateOf(1).remaining == 0 && farm.StateOf(1).accumulated == rewards;
    ok := farm.CollectUndistributedBoostedRewards();
    assert farm.StateOf(1).accumulated == rewards;
  }
}
