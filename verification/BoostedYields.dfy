/** energy-integration/farm-boosted-yields/src/lib.rs: weekly rewards are set aside, claimed, and swept up. */
module BoostedYields {
  import opened Chain
  import opened Wrappers
  import opened Arith
  import opened RewardSlices
  import opened BoostedFactors
  import opened BoostedPayouts
  import opened EnergyLedger
  import opened WeeklyEnergyBooks
  import opened WeeklyRewards

  const COLLECT_REWARDS_OFFSET: nat := USER_MAX_CLAIM_WEEKS + 1

  lemma LogIsHistory(config: Option<StoredConfig>, log: seq<Change>)
    requires config.Some? ==> Represents(config.value, log)
    ensures config.Some? ==> IsHistory(log)
  {
  }

  ghost predicate EarnsReward(s: WeekState, f: BoostedYieldsFactors, c: Claim) {
    && s.energy > 0 && s.farmSupply > 0 && f.minEnergyAmount <= c.energy && f.minFarmAmount <= c.farmAmount
    && s.taken > 0 && f.userRewardsEnergyConst + f.userRewardsFarmConst > 0
  }

  /** Claims fail for weeks the window of factors no longer reaches, where both constants are zero, and where the reward
      is more than what the week has not paid yet. */
  ghost predicate ClaimSucceeds(s: WeekState, f: BoostedYieldsFactors, week: Week, currentWeek: Week, c: Claim) {
    || s.energy == 0 || s.farmSupply == 0
    || (currentWeek < week + BOOSTED_YIELDS_FACTORS_ARRAY_LEN
        && (f.minEnergyAmount <= c.energy && f.minFarmAmount <= c.farmAmount && s.taken > 0 ==>
              EarnsReward(s, f, c) && UserReward(Totals(s), f, c) <= s.taken - s.paid))
  }

  /** What a claim that met the minimums does to its week. */
  ghost predicate IsPayment(s: WeekState, s': WeekState, f: BoostedYieldsFactors, c: Claim, r: Result<nat>) {
    && (r.Success? <==> (s.taken > 0 ==> CanPay(Totals(s), f) && UserReward(Totals(s), f, c) <= s.taken - s.paid))
    && Totals(s') == Totals(s)
    && (r.Success? ==>
          && s'.paid == s.paid + r.value
          && if s.taken == 0 then r.value == 0 && s'.claims == s.claims
             else r.value == UserReward(Totals(s), f, c) && s'.claims == s.claims + [c])
  }

  lemma PaymentOfCollected(s: WeekState, collected: WeekState, s': WeekState, f: BoostedYieldsFactors, c: Claim,
                           r: Result<nat>)
    requires IsPayment(collected, s', f, c, r) && collected.taken == s.taken && collected.paid == s.paid
    requires Totals(collected) == Totals(s) && collected.claims == s.claims
    ensures IsPayment(s, s', f, c, r) && (r.Failure? ==> IsPayment(s, s, f, c, r))
  {
    hide UserReward;
  }

  /** A claim that meets the minimums of a week with rewards needs constants to weigh it by. */
  ghost predicate ConstantsOk(s: WeekState, f: BoostedYieldsFactors, c: Claim) {
    s.energy > 0 && s.farmSupply > 0 && f.minEnergyAmount <= c.energy
    && f.minFarmAmount <= c.farmAmount && s.taken > 0 ==>
      f.userRewardsEnergyConst + f.userRewardsFarmConst > 0
  }

  /** With claims within the week's totals, nothing else makes one fail. */
  lemma FittingSucceeds(s: WeekState, week: Week, currentWeek: Week, lastSwept: Week, log: seq<Change>, c: Claim)
    requires WeekOk(s, week, currentWeek, lastSwept, log) && log != []
    requires currentWeek < week + BOOSTED_YIELDS_FACTORS_ARRAY_LEN
    requires s.energy > 0 && s.farmSupply > 0 ==>
               EnergySum(s.claims) + c.energy <= s.energy && FarmSum(s.claims) + c.farmAmount <= s.farmSupply
    ensures ClaimSucceeds(s, InForce(log, week), week, currentWeek, c) <==> ConstantsOk(s, InForce(log, week), c)
  {
    hide UserReward, InForce, WeekOk;
    if EarnsReward(s, InForce(log, week), c) {
      ClaimCovered(s, week, currentWeek, lastSwept, log, c);
    }
  }

  /** What a claim that succeeds is paid. */
  ghost function Earned(s: WeekState, f: BoostedYieldsFactors, c: Claim): nat {
    if EarnsReward(s, f, c) then UserReward(Totals(s), f, c) else 0
  }

  /** What a claim is paid: a reward iff it meets both minimums of a week that has something to share. */
  ghost predicate IsReward(r: nat, s: WeekState, f: BoostedYieldsFactors, c: Claim) {
    if s.energy > 0 && s.farmSupply > 0 && s.taken > 0
       && f.minEnergyAmount <= c.energy && f.minFarmAmount <= c.farmAmount
    then IsUserReward(r, WeekTotals(s.taken, s.energy, s.farmSupply), f, c)
    else r == 0
  }

  lemma EarnedIs(s: WeekState, f: BoostedYieldsFactors, week: Week, currentWeek: Week, c: Claim)
    requires ClaimSucceeds(s, f, week, currentWeek, c)
    ensures IsReward(Earned(s, f, c), s, f, c)
  {
    hide UserReward, IsUserReward;
    if EarnsReward(s, f, c) {
      UserRewardIs(Totals(s), f, c);
    }
  }

  /** What a claim that succeeds does to its week. */
  ghost predicate IsPaid(s: WeekState, s': WeekState, f: BoostedYieldsFactors, c: Claim) {
    && s'.paid == s.paid + Earned(s, f, c) && Totals(s') == Totals(s)
    && s'.claims == if EarnsReward(s, f, c) then s.claims + [c] else s.claims
  }

  // ---- What claims may add up to ----

  ghost function ClaimsAt(claims: map<Week, seq<Claim>>, week: Week): seq<Claim> {
    if week in claims then claims[week] else []
  }

  ghost predicate IsClaimed(claims: seq<Claim>, claims': seq<Claim>, c: Claim) {
    claims' == claims || claims' == claims + [c]
  }

  lemma OneMoreClaim(claims: seq<Claim>, claims': seq<Claim>, c: Claim)
    requires IsClaimed(claims, claims', c)
    ensures EnergySum(claims') <= EnergySum(claims) + c.energy && FarmSum(claims') <= FarmSum(claims) + c.farmAmount
  {
    assert (claims + [c])[..|claims|] == claims;
  }

  /** What was claimed with for every week, with the weeks from `first` on claimed once more. */
  ghost function FarmSpent(spent: map<Week, nat>, first: Week, currentWeek: Week, farmAmount: nat): map<Week, nat> {
    spent + map w: Week | first <= w < currentWeek :: At(spent, w) + farmAmount
  }

  /** One claim for every week from the first on. */
  ghost predicate AreInTurn(cs: seq<WeekClaim>, first: Week, currentWeek: Week) {
    0 < first && first + |cs| == currentWeek && forall i :: 0 <= i < |cs| ==> cs[i].week == first + i
  }

  /** The energy that is claimed with for a week. */
  ghost function EnergyFor(cs: seq<WeekClaim>, first: Week, week: Week): nat {
    if first <= week < first + |cs| then cs[week - first].energy else 0
  }

  /** The energies of the claims are counted, each for its week. */
  ghost predicate IsSpentFor(cs: seq<WeekClaim>, first: Week, spent: map<Week, nat>, spent': map<Week, nat>) {
    forall w: Week :: At(spent', w) == At(spent, w) + EnergyFor(cs, first, w)
  }

  lemma EnergyForIs(cs: seq<WeekClaim>, first: Week, week: Week)
    requires first <= week < first + |cs|
    ensures EnergyFor(cs, first, week) == cs[week - first].energy
  {
  }

  lemma FarmSpentAt(spent: map<Week, nat>, first: Week, currentWeek: Week, farmAmount: nat, week: Week)
    ensures At(FarmSpent(spent, first, currentWeek, farmAmount), week) ==
              At(spent, week) + if first <= week < currentWeek then farmAmount else 0
  {
  }

  lemma ClaimedEnergy(cs: seq<WeekClaim>, prev: Option<ClaimProgress>, currentWeek: Week, totals: map<Week, nat>,
                      week: Week)
    requires (prev.Some? ==> prev.value.week <= currentWeek) && AreClaims(cs, prev, currentWeek, totals)
    ensures EnergyFor(cs, FirstClaim(prev, currentWeek), week) ==
              if FirstClaim(prev, currentWeek) <= week < currentWeek then EnergyAt(prev.value, week) else 0
  {
    hide EnergyAt;
    var first := FirstClaim(prev, currentWeek);
    if first <= week < currentWeek {
      assert cs[week - first].energy == EnergyAt(prev.value, first + (week - first));
    }
  }

  lemma SpentFor(cs: seq<WeekClaim>, prev: Option<ClaimProgress>, currentWeek: Week, totals: map<Week, nat>,
                 spent: map<Week, nat>, spent': map<Week, nat>)
    requires (prev.Some? ==> prev.value.week <= currentWeek) && AreClaims(cs, prev, currentWeek, totals)
    requires forall w: Week :: At(spent', w) == At(spent, w) +
               if FirstClaim(prev, currentWeek) <= w < currentWeek then EnergyAt(prev.value, w) else 0
    ensures IsSpentFor(cs, FirstClaim(prev, currentWeek), spent, spent')
  {
    hide EnergyAt, EnergyFor, AreClaims, At;
    forall w: Week
      ensures At(spent', w) == At(spent, w) + EnergyFor(cs, FirstClaim(prev, currentWeek), w)
    {
      ClaimedEnergy(cs, prev, currentWeek, totals, w);
    }
  }

  /** The claims that were paid are among those that were made. */
  ghost predicate SpentCovers(claims: map<Week, seq<Claim>>, energySpent: map<Week, nat>, farmSpent: map<Week, nat>) {
    forall w: Week ::
      EnergySum(ClaimsAt(claims, w)) <= At(energySpent, w) && FarmSum(ClaimsAt(claims, w)) <= At(farmSpent, w)
  }

  // ---- Updates of the energies ----

  ghost predicate TotalsUpdated(totals: map<Week, nat>, totals': map<Week, nat>, rewards: map<Week, nat>,
                                rewards': map<Week, nat>, lastUpdate: Week, currentWeek: Week) {
    OthersKept(totals, totals', lastUpdate, currentWeek) && OnlyCleared(rewards, rewards', lastUpdate, currentWeek)
  }

  ghost function AfterUpdate(s: WeekState, week: Week, lastUpdate: Week, currentWeek: Week, energy: nat): WeekState {
    if week == currentWeek then s.(energy := energy)
    else if IsCleared(week, lastUpdate, currentWeek) then s.(total := None, energy := 0)
    else s
  }

  lemma TotalsOfWeek(totals: map<Week, nat>, totals': map<Week, nat>, rewards: map<Week, nat>, rewards': map<Week, nat>,
                     lastUpdate: Week, currentWeek: Week, week: Week)
    requires TotalsUpdated(totals, totals', rewards, rewards', lastUpdate, currentWeek)
    ensures week != currentWeek ==>
              At(totals', week) == if IsCleared(week, lastUpdate, currentWeek) then 0 else At(totals, week)
    ensures Stored(rewards', week) == if IsCleared(week, lastUpdate, currentWeek) then None else Stored(rewards, week)
  {
    assert week != currentWeek ==> Stored(totals', week) == if IsCleared(week, lastUpdate, currentWeek) then None
                                                            else Stored(totals, week);
  }

  lemma WeekUpdated(s: WeekState, week: Week, currentWeek: Week, lastSwept: Week, log: seq<Change>, lastUpdate: Week,
                    energy: nat)
    requires WeekOk(s, week, currentWeek, lastSwept, log)
    ensures WeekOk(AfterUpdate(s, week, lastUpdate, currentWeek, energy), week, currentWeek, lastSwept, log)
  {
    hide PaidOk;
    if week == currentWeek {
      CurrentWeekTotals(s, currentWeek, lastSwept, log, energy, s.farmSupply);
    } else {
      WeekCleared(s, week, currentWeek, lastSwept, log);
    }
  }

  // ---- Sums over weeks ----

  /** What the weeks first .. last hold. */
  ghost function SumRange(m: map<Week, nat>, first: Week, last: Week): nat
    decreases last
  {
    if last < first || last == 0 then 0 else SumRange(m, first, last - 1) + At(m, last)
  }

  lemma {:induction false} SumSet(m: map<Week, nat>, week: Week, amount: nat, last: Week)
    requires 0 < week
    ensures SumRange(m[week := amount], 1, last)
         == SumRange(m, 1, last) + if week <= last then amount - At(m, week) else 0
    decreases last
  {
    if last > 0 {
      SumSet(m, week, amount, last - 1);
    }
  }

  lemma NoWeeks(m: map<Week, nat>, first: Week, last: Week)
    requires last < first
    ensures SumRange(m, first, last) == 0
  {
  }

  lemma {:induction false} NothingBeyond(m: map<Week, nat>, last: Week, last': Week)
    requires last <= last' && forall w: Week :: last < w <= last' ==> At(m, w) == 0
    ensures SumRange(m, 1, last') == SumRange(m, 1, last)
    decreases last'
  {
    if last < last' {
      NothingBeyond(m, last, last' - 1);
    }
  }

  lemma {:induction false} Joined(m: map<Week, nat>, m': map<Week, nat>, first: Week, last: Week)
    requires 0 < first && first <= last + 1
    requires forall w: Week :: 0 < w <= last ==> At(m', w) == if w < first then At(m, w) else At(m', w)
    ensures SumRange(m', 1, last) == SumRange(m, 1, first - 1) + SumRange(m', first, last)
    decreases last
  {
    if first <= last {
      Joined(m, m', first, last - 1);
    } else {
      SameSum(m, m', 1, last);
    }
  }

  lemma {:induction false} SameSum(m: map<Week, nat>, m': map<Week, nat>, first: Week, last: Week)
    requires 0 < first && forall w: Week :: first <= w <= last ==> At(m, w) == At(m', w)
    ensures SumRange(m, first, last) == SumRange(m', first, last)
    decreases last
  {
    if first <= last {
      SameSum(m, m', first, last - 1);
    }
  }

  lemma {:induction false} SumsConserved(taken: map<Week, nat>, accumulated: map<Week, nat>, remaining: map<Week, nat>,
                                         paid: map<Week, nat>, swept: map<Week, nat>, last: Week)
    requires forall w: Week :: 0 < w <= last ==>
              At(taken, w) == At(accumulated, w) + At(remaining, w) + At(paid, w) + At(swept, w)
    ensures SumRange(taken, 1, last)
         == SumRange(accumulated, 1, last) + SumRange(remaining, 1, last)
            + SumRange(paid, 1, last) + SumRange(swept, 1, last)
    decreases last
  {
    if last > 0 {
      SumsConserved(taken, accumulated, remaining, paid, swept, last - 1);
    }
  }

  lemma {:induction false} WithinSum(m: map<Week, nat>, week: Week, last: Week)
    requires 0 < week <= last
    ensures At(m, week) <= SumRange(m, 1, last)
    decreases last
  {
    if week < last {
      WithinSum(m, week, last - 1);
    }
  }

  ghost predicate ConfigOk(config: Option<StoredConfig>, log: seq<Change>, currentWeek: Week) {
    && (config.None? <==> log == [])
    && (config.Some? ==> Represents(config.value, log) && config.value.lastUpdateWeek <= currentWeek)
  }

  /** Nothing is swept while it can still be claimed, and what was swept is what the owner can take. */
  ghost predicate SweptOk(undistributed: nat, swept: map<Week, nat>, lastSwept: Week, currentWeek: Week) {
    && (lastSwept == 0 || lastSwept + COLLECT_REWARDS_OFFSET <= currentWeek)
    && undistributed == SumRange(swept, 1, lastSwept)
  }

  lemma NotSwept(undistributed: nat, swept: map<Week, nat>, lastSwept: Week, currentWeek: Week, week: Week)
    requires SweptOk(undistributed, swept, lastSwept, currentWeek) && 0 < week
    requires currentWeek < week + COLLECT_REWARDS_OFFSET
    ensures lastSwept < week
  {
  }

  /** What was swept of every week, once the weeks first .. last are swept too. */
  ghost function SweptToo(swept: map<Week, nat>, remaining: map<Week, nat>, first: Week, last: Week): map<Week, nat> {
    map w: Week | w <= last :: if first <= w then At(remaining, w) else At(swept, w)
  }

  lemma SweptAt(swept: map<Week, nat>, remaining: map<Week, nat>, first: Week, last: Week)
    requires 0 < first <= last
    ensures forall w: Week :: At(SweptToo(swept, remaining, first, last), w) ==
              if w > last then 0 else if first <= w then At(remaining, w) else At(swept, w)
    ensures SumRange(SweptToo(swept, remaining, first, last), 1, last)
         == SumRange(swept, 1, first - 1) + SumRange(remaining, first, last)
  {
    var swept' := SweptToo(swept, remaining, first, last);
    Joined(swept, swept', first, last);
    SameSum(remaining, swept', first, last);
  }

  /** Everything a claim may write. */
  datatype Counters = Counters(
    boostedYieldsConfig: Option<StoredConfig>, accumulatedRewardsForWeek: map<Week, nat>,
    remainingBoostedRewardsToDistribute: map<Week, nat>, splitting: Storage)

  datatype GhostCounters = GhostCounters(
    collected: set<Week>, claims: map<Week, seq<Claim>>, paid: map<Week, nat>, residue: nat, spent: map<Week, nat>)

  class FarmBoostedYields {
    const splitting: WeeklyRewardsSplitting
    var boostedYieldsRewardsPercentage: nat
    var boostedYieldsConfig: Option<StoredConfig>
    var accumulatedRewardsForWeek: map<Week, nat>
    var remainingBoostedRewardsToDistribute: map<Week, nat>
    var farmSupplyForWeek: map<Week, nat>
    var undistributedBoostedRewards: nat
    var lastUndistributedBoostedRewardsCollectWeek: Week
    ghost var log: seq<Change>
    /** What was set aside, paid and swept of every week, for whom it was paid, and the weeks that were ever claimed
        from. */
    ghost var taken: map<Week, nat>
    ghost var paid: map<Week, nat>
    ghost var swept: map<Week, nat>
    ghost var claims: map<Week, seq<Claim>>
    ghost var collected: set<Week>
    /** The farm amounts that were claimed with for every week. */
    ghost var farmSpent: map<Week, nat>

    ghost function StateOf(week: Week): WeekState
      reads this, splitting
    {
      WeekState(At(accumulatedRewardsForWeek, week), Stored(splitting.totalRewardsForWeek, week),
                At(remainingBoostedRewardsToDistribute, week), At(splitting.totalEnergyForWeek, week),
                At(farmSupplyForWeek, week), At(taken, week), week in collected, ClaimsAt(claims, week), At(paid, week),
                At(swept, week))
    }

    ghost predicate WeeksOk()
      reads this, splitting
    {
      forall week: Week :: WeekOk(StateOf(week), week, splitting.currentWeek,
                                  lastUndistributedBoostedRewardsCollectWeek, log)
    }

    ghost predicate CountersOk()
      reads this, splitting
    {
      && splitting.currentWeek > 0 && boostedYieldsRewardsPercentage <= MAX_PERCENT
      && ConfigOk(boostedYieldsConfig, log, splitting.currentWeek)
      && SweptOk(undistributedBoostedRewards, swept, lastUndistributedBoostedRewardsCollectWeek, splitting.currentWeek)
      && WeeksOk()
    }

    ghost predicate Valid()
      reads this, splitting
    {
      CountersOk() && splitting.Valid() && SpentCovers(claims, splitting.spent, farmSpent)
    }

    /** What the counters of all weeks hold for users and owner. */
    ghost function BoostedOwed(): nat
      reads this, splitting
    {
      SumRange(accumulatedRewardsForWeek, 1, splitting.currentWeek)
      + SumRange(remainingBoostedRewardsToDistribute, 1, splitting.currentWeek)
      + undistributedBoostedRewards
    }

    /** Over every run: whatever was set aside was paid, or is still held. */
    lemma Conserved()
      requires CountersOk()
      ensures SumRange(taken, 1, splitting.currentWeek) == BoostedOwed() + SumRange(paid, 1, splitting.currentWeek)
    {
      hide PaidOk, Represents;
      forall w: Week | 0 < w <= splitting.currentWeek
        ensures At(taken, w)
             == At(accumulatedRewardsForWeek, w) + At(remainingBoostedRewardsToDistribute, w)
                + At(paid, w) + At(swept, w)
      {
        assert WeekOk(StateOf(w), w, splitting.currentWeek, lastUndistributedBoostedRewardsCollectWeek, log);
      }
      SumsConserved(taken, accumulatedRewardsForWeek, remainingBoostedRewardsToDistribute, paid, swept,
                    splitting.currentWeek);
      forall w: Week | lastUndistributedBoostedRewardsCollectWeek < w <= splitting.currentWeek
        ensures At(swept, w) == 0
      {
        assert WeekOk(StateOf(w), w, splitting.currentWeek, lastUndistributedBoostedRewardsCollectWeek, log);
      }
      NothingBeyond(swept, lastUndistributedBoostedRewardsCollectWeek, splitting.currentWeek);
    }

    /** In the first week all rewards wait in its own counter. */
    lemma FirstWeek()
      requires CountersOk() && splitting.currentWeek == 1
      ensures var s := StateOf(1); s.taken == s.accumulated == BoostedOwed() && s.claims == [] && s.paid == 0
    {
      assert WeekOk(StateOf(1), 1, 1, lastUndistributedBoostedRewardsCollectWeek, log);
    }

    constructor ()
      ensures Valid() && fresh(splitting) && splitting.currentWeek == 1 && splitting.lastGlobalUpdateWeek == 0
      ensures log == [] && boostedYieldsConfig.None? && boostedYieldsRewardsPercentage == 0 && BoostedOwed() == 0
      ensures forall w: Week :: StateOf(w) == WeekState(0, None, 0, 0, 0, 0, false, [], 0, 0)
      ensures undistributedBoostedRewards == 0 == lastUndistributedBoostedRewardsCollectWeek
      ensures splitting.currentClaimProgress == map[] && farmSupplyForWeek == map[] == farmSpent
    {
      hide WeekBooksOk, SpentOk;
      splitting := new WeeklyRewardsSplitting();
      boostedYieldsRewardsPercentage, boostedYieldsConfig := 0, None;
      accumulatedRewardsForWeek, remainingBoostedRewardsToDistribute, farmSupplyForWeek := map[], map[], map[];
      undistributedBoostedRewards, lastUndistributedBoostedRewardsCollectWeek := 0, 0;
      log, taken, paid, swept, claims, collected, farmSpent := [], map[], map[], map[], map[], {}, map[];
    }

    method AdvanceWeek(week: Week)
      requires Valid() && splitting.currentWeek <= week
      modifies splitting`currentWeek
      ensures Valid() && splitting.currentWeek == week && BoostedOwed() == old(BoostedOwed())
      ensures forall w: Week :: StateOf(w) == old(StateOf(w))
    {
      hide PaidOk, Represents, SumRange, WeekBooksOk, SpentOk, SpentCovers;
      Conserved();
      splitting.AdvanceWeek(week);
      forall w: Week
        ensures WeekOk(StateOf(w), w, week, lastUndistributedBoostedRewardsCollectWeek, log)
        ensures old(splitting.currentWeek) < w ==> At(taken, w) == 0 == At(paid, w)
      {
        assert StateOf(w) == old(StateOf(w));
        assert old(WeekOk(StateOf(w), w, splitting.currentWeek, lastUndistributedBoostedRewardsCollectWeek, log));
      }
      Conserved();
      NothingBeyond(taken, old(splitting.currentWeek), week);
      NothingBeyond(paid, old(splitting.currentWeek), week);
    }

    method SetBoostedYieldsRewardsPercentage(percentage: nat) returns (ok: bool)
      requires Valid()
      modifies this`boostedYieldsRewardsPercentage
      ensures Valid() && (ok <==> percentage <= MAX_PERCENT) && BoostedOwed() == old(BoostedOwed())
      ensures boostedYieldsRewardsPercentage == if ok then percentage else old(boostedYieldsRewardsPercentage)
      ensures forall w: Week :: StateOf(w) == old(StateOf(w))
    {
      hide WeekOk, Represents, SumRange, SpentCovers, WeekBooksOk, SpentOk;
      if percentage > MAX_PERCENT {
        return false;
      }
      boostedYieldsRewardsPercentage := percentage;
      forall w: Week
        ensures WeekOk(StateOf(w), w, splitting.currentWeek, lastUndistributedBoostedRewardsCollectWeek, log)
      {
        assert old(WeekOk(StateOf(w), w, splitting.currentWeek, lastUndistributedBoostedRewardsCollectWeek, log));
      }
      return true;
    }

    // ---- Energy ----

    /** What an update of the energies does to the weeks: the current week has another total, and one week is
        cleared. */
    twostate lemma EnergyUpdated()
      requires old(CountersOk()) && unchanged(this) && splitting.currentWeek == old(splitting.currentWeek)
      requires TotalsUpdated(old(splitting.totalEnergyForWeek), splitting.totalEnergyForWeek,
                             old(splitting.totalRewardsForWeek), splitting.totalRewardsForWeek,
                             old(splitting.lastGlobalUpdateWeek), splitting.currentWeek)
      ensures CountersOk() && BoostedOwed() == old(BoostedOwed())
      ensures forall w: Week :: StateOf(w) == AfterUpdate(old(StateOf(w)), w, old(splitting.lastGlobalUpdateWeek),
                                                          splitting.currentWeek,
                                                          At(splitting.totalEnergyForWeek, splitting.currentWeek))
    {
      hide WeekOk, ConfigOk, SweptOk, SumRange;
      forall w: Week
        ensures StateOf(w) == AfterUpdate(old(StateOf(w)), w, old(splitting.lastGlobalUpdateWeek),
                                          splitting.currentWeek,
                                          At(splitting.totalEnergyForWeek, splitting.currentWeek))
        ensures WeekOk(StateOf(w), w, splitting.currentWeek, lastUndistributedBoostedRewardsCollectWeek, log)
      {
        var s := old(StateOf(w));
        var energy := At(splitting.totalEnergyForWeek, splitting.currentWeek);
        assert old(WeekOk(StateOf(w), w, splitting.currentWeek, lastUndistributedBoostedRewardsCollectWeek, log));
        TotalsOfWeek(old(splitting.totalEnergyForWeek), splitting.totalEnergyForWeek,
                     old(splitting.totalRewardsForWeek), splitting.totalRewardsForWeek,
                     old(splitting.lastGlobalUpdateWeek), splitting.currentWeek, w);
        WeekUpdated(s, w, splitting.currentWeek, lastUndistributedBoostedRewardsCollectWeek, log,
                    old(splitting.lastGlobalUpdateWeek), energy);
      }
    }

    method UpdateEnergyAndProgress(user: Address, energy: EnergyEntry)
      requires Valid()
      modifies splitting`lastGlobalUpdateWeek, splitting`totalEnergyForWeek, splitting`totalLockedTokensForWeek,
               splitting`totalRewardsForWeek, splitting`firstBucketId, splitting`lockedTokensInBucket,
               splitting`residue, splitting`currentClaimProgress
      ensures Valid() && BoostedOwed() == old(BoostedOwed())
      ensures splitting.currentClaimProgress ==
                Replaced(old(splitting.currentClaimProgress), user, NextProgress(splitting.currentWeek, energy))
      ensures forall w: Week :: StateOf(w) == AfterUpdate(old(StateOf(w)), w, old(splitting.lastGlobalUpdateWeek),
                                                          splitting.currentWeek,
                                                          At(splitting.totalEnergyForWeek, splitting.currentWeek))
      ensures splitting.lastGlobalUpdateWeek == splitting.currentWeek
    {
      hide CountersOk, SpentCovers, StateOf, BoostedOwed, OthersKept, OnlyCleared, WeekBooksOk, SpentOk;
      splitting.UpdateEnergyAndProgress(user, energy);
      EnergyUpdated();
    }

    method UpdateEnergyForUser(user: Address, energy: EnergyEntry) returns (ok: bool)
      requires Valid()
      modifies splitting`lastGlobalUpdateWeek, splitting`totalEnergyForWeek, splitting`totalLockedTokensForWeek,
               splitting`totalRewardsForWeek, splitting`firstBucketId, splitting`lockedTokensInBucket,
               splitting`residue, splitting`currentClaimProgress
      ensures Valid() && BoostedOwed() == old(BoostedOwed())
      ensures ok <==> (user in old(splitting.currentClaimProgress) ==>
                         old(splitting.currentClaimProgress)[user].week == splitting.currentWeek)
      ensures splitting.currentClaimProgress ==
                if ok then Replaced(old(splitting.currentClaimProgress), user,
                                    NextProgress(splitting.currentWeek, energy))
                else old(splitting.currentClaimProgress)
    {
      hide CountersOk, SpentCovers, StateOf, BoostedOwed, TotalsUpdated, WeekBooksOk, SpentOk;
      if user in splitting.currentClaimProgress && splitting.currentClaimProgress[user].week != splitting.currentWeek {
        return false;
      }
      UpdateEnergyAndProgress(user, energy);
      return true;
    }

    /** A user whose position falls below the minimum in force no longer counts. */
    method ClearUserEnergyIfNeeded(user: Address, userTotalFarmPosition: nat, currentEpoch: Epoch)
      requires Valid()
      modifies splitting`lastGlobalUpdateWeek, splitting`totalEnergyForWeek, splitting`totalLockedTokensForWeek,
               splitting`totalRewardsForWeek, splitting`firstBucketId, splitting`lockedTokensInBucket,
               splitting`residue, splitting`currentClaimProgress
      ensures Valid() && BoostedOwed() == old(BoostedOwed())
      ensures splitting.currentClaimProgress ==
                if boostedYieldsConfig.Some?
                   && userTotalFarmPosition < InForce(log, splitting.currentWeek).minFarmAmount
                then old(splitting.currentClaimProgress) - {user} else old(splitting.currentClaimProgress)
    {
      hide SpentCovers, StateOf, BoostedOwed, OthersKept, OnlyCleared, WeekBooksOk, SpentOk, WeeksOk, SweptOk, InForce,
           Represents;
      if boostedYieldsConfig.None? {
        return;
      }
      var config := new BoostedYieldsConfig.Load(boostedYieldsConfig.value);
      var updated := config.Update(splitting.currentWeek, None, log);
      var factors := config.GetLatestFactors(log);
      if userTotalFarmPosition < factors.minFarmAmount {
        splitting.ClearUserEnergy(user, userTotalFarmPosition, factors.minFarmAmount, currentEpoch);
        EnergyUpdated();
      }
    }

    method SetFarmSupplyForCurrentWeek(farmSupply: nat)
      requires Valid()
      modifies this`farmSupplyForWeek
      ensures Valid() && BoostedOwed() == old(BoostedOwed())
      ensures farmSupplyForWeek == old(farmSupplyForWeek)[splitting.currentWeek := farmSupply]
      ensures forall w: Week :: StateOf(w) == if w == splitting.currentWeek
                                              then old(StateOf(w)).(farmSupply := farmSupply) else old(StateOf(w))
    {
      hide WeekOk, ConfigOk, SweptOk, SumRange, SpentCovers, WeekBooksOk, SpentOk;
      assert WeekOk(StateOf(splitting.currentWeek), splitting.currentWeek, splitting.currentWeek,
                    lastUndistributedBoostedRewardsCollectWeek, log);
      farmSupplyForWeek := farmSupplyForWeek[splitting.currentWeek := farmSupply];
      CurrentWeekTotals(old(StateOf(splitting.currentWeek)), splitting.currentWeek,
                        lastUndistributedBoostedRewardsCollectWeek, log,
                        At(splitting.totalEnergyForWeek, splitting.currentWeek), farmSupply);
      WeeksKept(splitting.currentWeek);
    }

    method SetBoostedYieldsFactors(factors: BoostedYieldsFactors) returns (ok: bool)
      requires Valid()
      modifies this`boostedYieldsConfig, this`log
      ensures Valid() && BoostedOwed() == old(BoostedOwed())
      ensures ok <==> factors.minEnergyAmount > 0 && factors.minFarmAmount > 0
      ensures log == if ok then old(log) + [Change(splitting.currentWeek, factors)] else old(log)
      ensures !ok ==> boostedYieldsConfig == old(boostedYieldsConfig)
      ensures forall w: Week :: StateOf(w) == old(StateOf(w))
    {
      hide CanPay, InForce, Represents, PaidOk, SumRange, SpentCovers, WeekBooksOk, SpentOk;
      if factors.minEnergyAmount == 0 || factors.minFarmAmount == 0 {
        return false;
      }
      if boostedYieldsConfig.Some? {
        var config := new BoostedYieldsConfig.Load(boostedYieldsConfig.value);
        var updated := config.Update(splitting.currentWeek, Some(factors), log);
        boostedYieldsConfig := Some(config.Stored());
      } else {
        var config := new BoostedYieldsConfig(splitting.currentWeek, factors);
        boostedYieldsConfig := Some(config.Stored());
        assert log + [Change(splitting.currentWeek, factors)] == [Change(splitting.currentWeek, factors)];
      }
      LogIsHistory(old(boostedYieldsConfig), log);
      log := log + [Change(splitting.currentWeek, factors)];
      forall w: Week
        ensures WeekOk(StateOf(w), w, splitting.currentWeek, lastUndistributedBoostedRewardsCollectWeek, log)
      {
        assert StateOf(w) == old(StateOf(w));
        assert old(WeekOk(StateOf(w), w, splitting.currentWeek, lastUndistributedBoostedRewardsCollectWeek, log));
        WeekOutlives(StateOf(w), w, splitting.currentWeek, lastUndistributedBoostedRewardsCollectWeek, old(log),
                     splitting.currentWeek, log);
      }
      return true;
    }

    /** Part of new rewards is set aside for the current week. */
    method TakeRewardSlice(fullReward: nat) returns (baseFarm: nat, boostedFarm: nat)
      requires Valid()
      modifies this`accumulatedRewardsForWeek, this`taken
      ensures Valid() && baseFarm + boostedFarm == fullReward
      ensures IsFloor(boostedFarm, fullReward * boostedYieldsRewardsPercentage, MAX_PERCENT)
      ensures BoostedOwed() == old(BoostedOwed()) + boostedFarm
      ensures forall w: Week :: StateOf(w) == if w == splitting.currentWeek
                then old(StateOf(w)).(accumulated := old(StateOf(w)).accumulated + boostedFarm,
                                      taken := old(StateOf(w)).taken + boostedFarm)
                else old(StateOf(w))
    {
      hide PaidOk, Represents, SumRange, BoostedCut, SpentCovers, WeekBooksOk, SpentOk;
      boostedFarm := BoostedCut(fullReward, boostedYieldsRewardsPercentage);
      baseFarm := fullReward;
      if boostedFarm > 0 {
        SumSet(accumulatedRewardsForWeek, splitting.currentWeek,
               At(accumulatedRewardsForWeek, splitting.currentWeek) + boostedFarm, splitting.currentWeek);
        var accumulated := At(accumulatedRewardsForWeek, splitting.currentWeek) + boostedFarm;
        accumulatedRewardsForWeek := accumulatedRewardsForWeek[splitting.currentWeek := accumulated];
        taken := taken[splitting.currentWeek := At(taken, splitting.currentWeek) + boostedFarm];
        baseFarm := fullReward - boostedFarm;
      }
      forall w: Week
        ensures WeekOk(StateOf(w), w, splitting.currentWeek, lastUndistributedBoostedRewardsCollectWeek, log)
      {
        assert old(WeekOk(StateOf(w), w, splitting.currentWeek, lastUndistributedBoostedRewardsCollectWeek, log));
      }
    }

    method UpdateBoostedYieldsConfig()
      requires boostedYieldsConfig.Some? && ConfigOk(boostedYieldsConfig, log, splitting.currentWeek)
      modifies this`boostedYieldsConfig
      ensures boostedYieldsConfig.Some? && ConfigOk(boostedYieldsConfig, log, splitting.currentWeek)
    {
      hide Represents;
      var config := new BoostedYieldsConfig.Load(boostedYieldsConfig.value);
      var updated := config.Update(splitting.currentWeek, None, log);
      boostedYieldsConfig := Some(config.Stored());
    }

    /** The first claim of a week moves its rewards to the counter that claims are taken from. */
    method CollectAndGetRewardsForWeek(week: Week) returns (total: nat)
      requires CountersOk() && lastUndistributedBoostedRewardsCollectWeek < week < splitting.currentWeek
      requires boostedYieldsConfig.Some?
      requires StateOf(week).energy > 0
      modifies this`boostedYieldsConfig, this`accumulatedRewardsForWeek, splitting`totalRewardsForWeek,
               this`remainingBoostedRewardsToDistribute, this`collected
      ensures CountersOk() && total == StateOf(week).taken && boostedYieldsConfig.Some?
      ensures BoostedOwed() == old(BoostedOwed())
      ensures forall w: Week :: w != week ==> StateOf(w) == old(StateOf(w))
      ensures var s := old(StateOf(week));
              StateOf(week) == s.(accumulated := 0, total := Some(s.taken), remaining := s.taken - s.paid,
                                  collected := true)
    {
      hide WeekOk, ConfigOk, SweptOk, SumRange;
      ghost var before := StateOf(week);
      assert WeekOk(before, week, splitting.currentWeek, lastUndistributedBoostedRewardsCollectWeek, log);
      WeekTotal(before, week, splitting.currentWeek, lastUndistributedBoostedRewardsCollectWeek, log);
      if week in splitting.totalRewardsForWeek {
        return splitting.totalRewardsForWeek[week];
      }
      UpdateBoostedYieldsConfig();
      total := At(accumulatedRewardsForWeek, week);
      MoveAccumulated(week, total);
      WeekCollected(before, week, splitting.currentWeek, lastUndistributedBoostedRewardsCollectWeek, log);
      WeeksKept(week);
    }

    method MoveAccumulated(week: Week, total: nat)
      requires 0 < week <= splitting.currentWeek && total == At(accumulatedRewardsForWeek, week)
      requires At(remainingBoostedRewardsToDistribute, week) == 0
      modifies this`accumulatedRewardsForWeek, splitting`totalRewardsForWeek, this`remainingBoostedRewardsToDistribute,
               this`collected
      ensures BoostedOwed() == old(BoostedOwed())
      ensures forall w: Week :: StateOf(w) == if w != week then old(StateOf(w)) else
                old(StateOf(w)).(accumulated := 0, total := Some(total), remaining := total, collected := true)
    {
      hide SumRange;
      AtRemoved(accumulatedRewardsForWeek, week);
      SumSet(accumulatedRewardsForWeek, week, 0, splitting.currentWeek);
      SumSet(remainingBoostedRewardsToDistribute, week, total, splitting.currentWeek);
      SameSum(accumulatedRewardsForWeek[week := 0], accumulatedRewardsForWeek - {week}, 1, splitting.currentWeek);
      accumulatedRewardsForWeek := accumulatedRewardsForWeek - {week};
      remainingBoostedRewardsToDistribute := remainingBoostedRewardsToDistribute[week := total];
      splitting.totalRewardsForWeek := splitting.totalRewardsForWeek[week := total];
      collected := collected + {week};
    }

    /** What a user gets of a past week. `config` is the stored configuration brought up to the current week. */
    method GetUserRewardsForWeek(week: Week, userFarmAmount: nat, energyAmount: nat,
                                 config: BoostedYieldsConfig) returns (r: Result<nat>)
      requires CountersOk() && 0 < week < splitting.currentWeek && boostedYieldsConfig.Some?
      requires Represents(config.Stored(), log) && config.lastUpdateWeek == splitting.currentWeek
      modifies this`boostedYieldsConfig, this`accumulatedRewardsForWeek, splitting`totalRewardsForWeek,
               this`remainingBoostedRewardsToDistribute, this`collected, this`claims, this`paid
      ensures CountersOk() && boostedYieldsConfig.Some?
      ensures r.Success? <==>
                ClaimSucceeds(old(StateOf(week)), InForce(log, week), week, splitting.currentWeek,
                              Claim(energyAmount, userFarmAmount))
      ensures r.Success? ==>
                var s, c := old(StateOf(week)), Claim(energyAmount, userFarmAmount);
                && StateOf(week).paid == s.paid + r.value && r.value <= old(BoostedOwed())
                && BoostedOwed() == old(BoostedOwed()) - r.value
                && if EarnsReward(s, InForce(log, week), c) then
                  && r.value == UserReward(Totals(s), InForce(log, week), c)
                  && lastUndistributedBoostedRewardsCollectWeek < week
                  && StateOf(week).claims == s.claims + [c]
                else r.value == 0 && StateOf(week).claims == s.claims
      ensures r.Success? ==>
                IsReward(r.value, old(StateOf(week)), InForce(log, week), Claim(energyAmount, userFarmAmount))
      ensures forall w: Week :: w != week || r.Failure? ==> StateOf(w) == old(StateOf(w))
      ensures r.Failure? ==> BoostedOwed() == old(BoostedOwed())
      ensures Totals(StateOf(week)) == old(Totals(StateOf(week)))
    {
      hide InForce, Represents, UserReward, IsUserReward, WeekOk, SweptOk, SumRange;
      var totalEnergy, farmSupplyForWeek := At(splitting.totalEnergyForWeek, week), At(farmSupplyForWeek, week);
      if totalEnergy == 0 || farmSupplyForWeek == 0 {
        return Success(0);
      }
      var factors := config.GetFactorsForWeek(week, log);
      if factors.Failure? {
        return Failure;
      }
      if energyAmount < factors.value.minEnergyAmount || userFarmAmount < factors.value.minFarmAmount {
        return Success(0);
      }
      NotSwept(undistributedBoostedRewards, swept, lastUndistributedBoostedRewardsCollectWeek, splitting.currentWeek,
               week);
      r := CollectAndPay(week, factors.value, Claim(energyAmount, userFarmAmount));
      if r.Success? {
        EarnedIs(old(StateOf(week)), factors.value, week, splitting.currentWeek, Claim(energyAmount, userFarmAmount));
      }
    }

    /** The part of a claim that writes: the week is collected, and the reward taken out of it. */
    method CollectAndPay(week: Week, factors: BoostedYieldsFactors, claim: Claim) returns (r: Result<nat>)
      requires CountersOk() && lastUndistributedBoostedRewardsCollectWeek < week < splitting.currentWeek
      requires boostedYieldsConfig.Some?
      requires log != [] && factors == InForce(log, week) && StateOf(week).energy > 0 && StateOf(week).farmSupply > 0
      modifies this`boostedYieldsConfig, this`accumulatedRewardsForWeek, splitting`totalRewardsForWeek,
               this`remainingBoostedRewardsToDistribute, this`collected, this`claims, this`paid
      ensures CountersOk() && boostedYieldsConfig.Some?
      ensures IsPayment(old(StateOf(week)), StateOf(week), factors, claim, r)
      ensures forall w: Week :: w != week || r.Failure? ==> StateOf(w) == old(StateOf(w))
      ensures BoostedOwed() == old(BoostedOwed()) - if r.Success? then r.value else 0
    {
      hide InForce, ConfigOk, UserReward, WeekOk, SweptOk, SumRange, StateOf, BoostedOwed, At, IsPayment;
      var configBefore, accumulatedBefore := boostedYieldsConfig, accumulatedRewardsForWeek;
      var totalBefore, remainingBefore := splitting.totalRewardsForWeek, remainingBoostedRewardsToDistribute;
      ghost var collectedBefore := collected;
      var weeklyReward := CollectAndGetRewardsForWeek(week);
      ghost var afterCollecting := StateOf(week);
      r := PayCollected(week, weeklyReward, factors, claim);
      PaymentOfCollected(old(StateOf(week)), afterCollecting, StateOf(week), factors, claim, r);
      if r.Failure? {
        // dividing by zero, or taking more than remains, reverts, which takes back the collection
        boostedYieldsConfig, accumulatedRewardsForWeek := configBefore, accumulatedBefore;
        splitting.totalRewardsForWeek, remainingBoostedRewardsToDistribute := totalBefore, remainingBefore;
        collected := collectedBefore;
        assert unchanged(this) && unchanged(splitting);
      }
    }

    method PayCollected(week: Week, weeklyReward: nat, factors: BoostedYieldsFactors,
                        claim: Claim) returns (r: Result<nat>)
      requires CountersOk() && lastUndistributedBoostedRewardsCollectWeek < week < splitting.currentWeek
      requires StateOf(week).total.Some?
      requires weeklyReward == StateOf(week).taken
      requires StateOf(week).remaining == StateOf(week).taken - StateOf(week).paid
      requires log != [] && factors == InForce(log, week) && StateOf(week).energy > 0 && StateOf(week).farmSupply > 0
      modifies this`remainingBoostedRewardsToDistribute, this`claims, this`paid
      ensures CountersOk() && IsPayment(old(StateOf(week)), StateOf(week), factors, claim, r)
      ensures r.Failure? ==> paid == old(paid) && claims == old(claims)
      ensures r.Success? ==> BoostedOwed() == old(BoostedOwed()) - r.value
      ensures r.Success? ==> forall w: Week :: w != week ==> StateOf(w) == old(StateOf(w))
    {
      hide InForce, ConfigOk, UserReward, WeekOk, SweptOk, SumRange;
      if weeklyReward == 0 {
        return Success(0);
      }
      if factors.userRewardsEnergyConst + factors.userRewardsFarmConst == 0 {
        return Failure;
      }
      var totals := WeekTotals(weeklyReward, At(splitting.totalEnergyForWeek, week), At(farmSupplyForWeek, week));
      r := PayClaim(week, totals, factors, claim);
    }

    /** The reward comes out of the week's counter, if that covers it. */
    method PayClaim(week: Week, totals: WeekTotals, factors: BoostedYieldsFactors,
                    claim: Claim) returns (r: Result<nat>)
      requires CountersOk() && lastUndistributedBoostedRewardsCollectWeek < week < splitting.currentWeek
      requires StateOf(week).total.Some?
      requires log != [] && factors == InForce(log, week) && totals == Totals(StateOf(week)) && CanPay(totals, factors)
      modifies this`remainingBoostedRewardsToDistribute, this`claims, this`paid
      ensures CountersOk() && (r.Success? <==> UserReward(totals, factors, claim) <= old(StateOf(week)).remaining)
      ensures r.Success? ==> r.value == UserReward(totals, factors, claim) <= old(BoostedOwed())
      ensures r.Success? ==> IsUserReward(r.value, totals, factors, claim)
      ensures r.Success? ==> BoostedOwed() == old(BoostedOwed()) - r.value
      ensures r.Success? ==> forall w: Week :: StateOf(w) == if w != week then old(StateOf(w)) else
                old(StateOf(w)).(claims := old(StateOf(w)).claims + [claim],
                                 remaining := old(StateOf(w)).remaining - r.value,
                                 paid := old(StateOf(w)).paid + r.value)
      ensures r.Failure? ==> paid == old(paid) && claims == old(claims)
    {
      hide InForce, Represents, UserReward, IsUserReward, WeekOk, SweptOk, SumRange;
      ghost var s := StateOf(week);
      UserRewardIs(totals, factors, claim);
      var userReward := UserReward(totals, factors, claim);
      if userReward > At(remainingBoostedRewardsToDistribute, week) {
        return Failure;
      }
      WeekClaimed(s, week, splitting.currentWeek, lastUndistributedBoostedRewardsCollectWeek, log, claim, userReward);
      TakeFromRemaining(week, claim, userReward);
      WeeksKept(week);
      return Success(userReward);
    }

    method TakeFromRemaining(week: Week, claim: Claim, userReward: nat)
      requires 0 < week <= splitting.currentWeek && userReward <= At(remainingBoostedRewardsToDistribute, week)
      modifies this`remainingBoostedRewardsToDistribute, this`claims, this`paid
      ensures userReward <= old(BoostedOwed()) && BoostedOwed() == old(BoostedOwed()) - userReward
      ensures forall w: Week :: StateOf(w) == if w != week then old(StateOf(w)) else
                old(StateOf(w)).(claims := old(StateOf(w)).claims + [claim],
                                 remaining := old(StateOf(w)).remaining - userReward,
                                 paid := old(StateOf(w)).paid + userReward)
    {
      hide SumRange;
      WithinSum(remainingBoostedRewardsToDistribute, week, splitting.currentWeek);
      if userReward > 0 {
        SumSet(remainingBoostedRewardsToDistribute, week, At(remainingBoostedRewardsToDistribute, week) - userReward,
               splitting.currentWeek);
        remainingBoostedRewardsToDistribute :=
          remainingBoostedRewardsToDistribute[week := At(remainingBoostedRewardsToDistribute, week) - userReward];
      }
      claims := claims[week := ClaimsAt(claims, week) + [claim]];
      paid := paid[week := At(paid, week) + userReward];
    }

    // ---- Claims over several weeks ----

    ghost predicate Succeeds(c: WeekClaim, farmAmount: nat)
      requires log != []
      reads this, splitting
    {
      ClaimSucceeds(StateOf(c.week), InForce(log, c.week), c.week, splitting.currentWeek, Claim(c.energy, farmAmount))
    }

    ghost function EarnedIn(c: WeekClaim, farmAmount: nat): nat
      requires log != []
      reads this, splitting
    {
      Earned(StateOf(c.week), InForce(log, c.week), Claim(c.energy, farmAmount))
    }

    /** What a week that can pay owes for a claim; the claims of a user are paid the sum of it. */
    lemma EarnedInIs(c: WeekClaim, farmAmount: nat)
      requires log != [] && Succeeds(c, farmAmount)
      ensures IsReward(EarnedIn(c, farmAmount), StateOf(c.week), InForce(log, c.week), Claim(c.energy, farmAmount))
    {
      hide StateOf, InForce, IsReward, ClaimSucceeds, Earned;
      EarnedIs(StateOf(c.week), InForce(log, c.week), c.week, splitting.currentWeek, Claim(c.energy, farmAmount));
    }

    lemma AllEarnedAre(farmAmount: nat)
      requires log != []
      ensures forall c: WeekClaim :: Succeeds(c, farmAmount) ==>
                IsReward(EarnedIn(c, farmAmount), StateOf(c.week), InForce(log, c.week), Claim(c.energy, farmAmount))
    {
      hide StateOf, InForce, IsReward, Succeeds, EarnedIn;
      forall c: WeekClaim | Succeeds(c, farmAmount)
        ensures IsReward(EarnedIn(c, farmAmount), StateOf(c.week), InForce(log, c.week), Claim(c.energy, farmAmount))
      {
        EarnedInIs(c, farmAmount);
      }
    }

    ghost function EarnedSum(cs: seq<WeekClaim>, farmAmount: nat): nat
      requires log != []
      reads this, splitting
    {
      if cs == [] then 0 else EarnedSum(cs[..|cs| - 1], farmAmount) + EarnedIn(cs[|cs| - 1], farmAmount)
    }

    ghost predicate HasConstants(c: WeekClaim, farmAmount: nat)
      requires log != []
      reads this, splitting
    {
      ConstantsOk(StateOf(c.week), InForce(log, c.week), Claim(c.energy, farmAmount))
    }

    /** The energy of a claim always fits; if the farm amount does, the claim is paid. */
    lemma UserSucceeds(user: Address, c: WeekClaim, farmAmount: nat)
      requires Valid() && log != [] && user in splitting.currentClaimProgress
      requires splitting.currentClaimProgress[user].week <= c.week
      requires c.energy == EnergyAt(splitting.currentClaimProgress[user], c.week)
      requires splitting.currentWeek < c.week + BOOSTED_YIELDS_FACTORS_ARRAY_LEN
      requires c.week in farmSupplyForWeek ==> At(farmSpent, c.week) + farmAmount <= farmSupplyForWeek[c.week]
      ensures Succeeds(c, farmAmount) <==> HasConstants(c, farmAmount)
    {
      hide WeekOk, ClaimSucceeds, ConstantsOk, InForce, EnergyAt, EnergySum, FarmSum, ConfigOk, SweptOk, WeekBooksOk,
           SpentOk;
      var week := c.week;
      assert WeekOk(StateOf(week), week, splitting.currentWeek, lastUndistributedBoostedRewardsCollectWeek, log);
      if week in splitting.totalEnergyForWeek {
        splitting.UserClaimFits(user, week);
      }
      assert EnergySum(ClaimsAt(claims, week)) <= At(splitting.spent, week);
      assert FarmSum(ClaimsAt(claims, week)) <= At(farmSpent, week);
      FittingSucceeds(StateOf(week), week, splitting.currentWeek, lastUndistributedBoostedRewardsCollectWeek, log,
                      Claim(c.energy, farmAmount));
    }

    method PayWeek(c: WeekClaim, farmAmount: nat, config: BoostedYieldsConfig) returns (r: Result<nat>)
      requires CountersOk() && boostedYieldsConfig.Some? && log != [] && 0 < c.week < splitting.currentWeek
      requires Represents(config.Stored(), log) && config.lastUpdateWeek == splitting.currentWeek
      modifies this`boostedYieldsConfig, this`accumulatedRewardsForWeek, splitting`totalRewardsForWeek,
               this`remainingBoostedRewardsToDistribute, this`collected, this`claims, this`paid
      ensures CountersOk() && boostedYieldsConfig.Some? && (r.Success? <==> old(Succeeds(c, farmAmount)))
      ensures r.Success? ==>
                && r.value == old(EarnedIn(c, farmAmount)) <= old(BoostedOwed())
                && BoostedOwed() == old(BoostedOwed()) - r.value
                && IsPaid(old(StateOf(c.week)), StateOf(c.week), InForce(log, c.week), Claim(c.energy, farmAmount))
      ensures forall w: Week :: w != c.week ==> StateOf(w) == old(StateOf(w))
    {
      hide CountersOk, StateOf, BoostedOwed, InForce, Represents, ClaimSucceeds, EarnsReward, UserReward, Totals,
           IsReward;
      r := GetUserRewardsForWeek(c.week, farmAmount, c.energy, config);
    }

    /** Week after week is paid; the first claim that fails reverts them all. */
    method PayWeeks(weekClaims: seq<WeekClaim>, farmAmount: nat, config: BoostedYieldsConfig,
                    ghost first: Week) returns (r: Result<nat>)
      requires CountersOk() && boostedYieldsConfig.Some? && log != []
      requires Represents(config.Stored(), log) && config.lastUpdateWeek == splitting.currentWeek
      requires AreInTurn(weekClaims, first, splitting.currentWeek)
      modifies this`boostedYieldsConfig, this`accumulatedRewardsForWeek, splitting`totalRewardsForWeek,
               this`remainingBoostedRewardsToDistribute, this`collected, this`claims, this`paid
      ensures r.Success? ==> CountersOk() && boostedYieldsConfig.Some?
      ensures r.Success? <==> forall i :: 0 <= i < |weekClaims| ==> old(Succeeds(weekClaims[i], farmAmount))
      ensures r.Success? ==> r.value == old(EarnedSum(weekClaims, farmAmount)) <= old(BoostedOwed())
      ensures r.Success? ==> BoostedOwed() == old(BoostedOwed()) - r.value
      ensures r.Success? ==> forall w: Week :: w < first || splitting.currentWeek <= w ==> StateOf(w) == old(StateOf(w))
      ensures r.Success? ==> forall i :: 0 <= i < |weekClaims| ==>
                IsPaid(old(StateOf(weekClaims[i].week)), StateOf(weekClaims[i].week), InForce(log, weekClaims[i].week),
                       Claim(weekClaims[i].energy, farmAmount))
    {
      hide CountersOk, StateOf, BoostedOwed, InForce, Represents, ClaimSucceeds, Earned, IsPaid;
      var total := 0;
      for i := 0 to |weekClaims|
        invariant CountersOk() && boostedYieldsConfig.Some?
        invariant Represents(config.Stored(), log) && config.lastUpdateWeek == splitting.currentWeek
        invariant forall j :: 0 <= j < i ==> old(Succeeds(weekClaims[j], farmAmount))
        invariant total == old(EarnedSum(weekClaims[..i], farmAmount)) <= old(BoostedOwed())
        invariant BoostedOwed() == old(BoostedOwed()) - total
        invariant forall w: Week :: w < first || first + i <= w ==> StateOf(w) == old(StateOf(w))
        invariant forall j :: 0 <= j < i ==>
                    IsPaid(old(StateOf(weekClaims[j].week)), StateOf(weekClaims[j].week),
                           InForce(log, weekClaims[j].week), Claim(weekClaims[j].energy, farmAmount))
      {
        var c := weekClaims[i];
        assert weekClaims[..i + 1][..i] == weekClaims[..i];
        var reward := PayWeek(c, farmAmount, config);
        if reward.Failure? {
          return Failure;
        }
        total := total + reward.value;
      }
      assert weekClaims[..|weekClaims|] == weekClaims;
      return Success(total);
    }

    /** The weeks a user has not claimed yet, each with its energy; nothing is paid yet. */
    method StartClaims(user: Address, energy: EnergyEntry, ghost farmAmount: nat) returns (cs: seq<WeekClaim>)
      requires CountersOk() && splitting.Valid() && log != []
      modifies splitting`lastGlobalUpdateWeek, splitting`totalEnergyForWeek, splitting`totalLockedTokensForWeek,
               splitting`totalRewardsForWeek, splitting`firstBucketId, splitting`lockedTokensInBucket,
               splitting`residue, splitting`currentClaimProgress, splitting`spent
      ensures CountersOk() && splitting.Valid() && BoostedOwed() == old(BoostedOwed())
      ensures old(user in splitting.currentClaimProgress) ==>
                old(splitting.currentClaimProgress)[user].week <= splitting.currentWeek
      ensures AreClaims(cs, old(Progress(splitting.currentClaimProgress, user)), splitting.currentWeek,
                        old(splitting.totalEnergyForWeek))
      ensures AreInTurn(cs, FirstClaim(old(Progress(splitting.currentClaimProgress, user)), splitting.currentWeek),
                        splitting.currentWeek)
      ensures forall i :: 0 <= i < |cs| ==> Succeeds(cs[i], farmAmount) == old(Succeeds(cs[i], farmAmount))
      ensures EarnedSum(cs, farmAmount) == old(EarnedSum(cs, farmAmount))
      ensures splitting.currentClaimProgress ==
                Replaced(old(splitting.currentClaimProgress), user, NextProgress(splitting.currentWeek, energy))
      ensures IsSpentFor(cs, FirstClaim(old(Progress(splitting.currentClaimProgress, user)), splitting.currentWeek),
                         old(splitting.spent), splitting.spent)
    {
      hide CountersOk, StateOf, BoostedOwed, InForce, Succeeds, EarnedSum, EnergyAt, WeekBooksOk, SpentOk, OthersKept,
           OnlyCleared;
      ghost var prev := Progress(splitting.currentClaimProgress, user);
      cs := splitting.ClaimMulti(user, energy);
      EnergyUpdated();
      SameClaims(cs, prev, farmAmount);
      SpentFor(cs, prev, splitting.currentWeek, old(splitting.totalEnergyForWeek), old(splitting.spent),
               splitting.spent);
    }

    /** The claims are paid, and counted. */
    method PayClaims(cs: seq<WeekClaim>, farmAmount: nat, config: BoostedYieldsConfig, ghost first: Week,
                     ghost spentBefore: map<Week, nat>)
      returns (r: Result<nat>)
      requires CountersOk() && splitting.Valid() && boostedYieldsConfig.Some? && log != []
      requires Represents(config.Stored(), log) && config.lastUpdateWeek == splitting.currentWeek
      requires AreInTurn(cs, first, splitting.currentWeek) && IsSpentFor(cs, first, spentBefore, splitting.spent)
      requires SpentCovers(claims, spentBefore, farmSpent)
      modifies this`boostedYieldsConfig, this`accumulatedRewardsForWeek, splitting`totalRewardsForWeek,
               this`remainingBoostedRewardsToDistribute, this`collected, this`claims, this`paid, this`farmSpent
      ensures r.Success? ==> Valid() && boostedYieldsConfig.Some?
      ensures r.Success? <==> forall i :: 0 <= i < |cs| ==> old(Succeeds(cs[i], farmAmount))
      ensures r.Success? ==> r.value == old(EarnedSum(cs, farmAmount)) <= old(BoostedOwed())
      ensures r.Success? ==> BoostedOwed() == old(BoostedOwed()) - r.value
      ensures r.Success? ==> farmSpent == FarmSpent(old(farmSpent), first, splitting.currentWeek, farmAmount)
      ensures r.Failure? ==> farmSpent == old(farmSpent)
    {
      hide CountersOk, StateOf, BoostedOwed, InForce, Represents, Succeeds, EarnedSum, SpentCovers, WeekBooksOk,
           SpentOk, FarmSpent, IsPaid, IsSpentFor;
      r := PayWeeks(cs, farmAmount, config, first);
      if r.Success? {
        CountFarmAmounts(first, farmAmount);
        StillCovered(cs, first, farmAmount, spentBefore);
      }
    }

    /** All weeks a user has not claimed yet, at most four, with the user's farm amount; nothing without a
        configuration. */
    method ClaimBoostedYieldsRewards(user: Address, farmTokenAmount: nat, energy: EnergyEntry)
      returns (r: Result<nat>, ghost weekClaims: seq<WeekClaim>)
      requires Valid()
      modifies this`boostedYieldsConfig, this`accumulatedRewardsForWeek, this`remainingBoostedRewardsToDistribute,
               this`collected, this`claims, this`paid, this`farmSpent, splitting`lastGlobalUpdateWeek,
               splitting`totalEnergyForWeek, splitting`totalLockedTokensForWeek, splitting`totalRewardsForWeek,
               splitting`firstBucketId, splitting`lockedTokensInBucket, splitting`residue,
               splitting`currentClaimProgress, splitting`spent
      ensures Valid() && (boostedYieldsConfig.Some? <==> log != [])
      ensures log == [] ==> r == Success(0) && weekClaims == [] && Untouched()
      ensures log != [] && old(user in splitting.currentClaimProgress) ==>
                old(splitting.currentClaimProgress)[user].week <= splitting.currentWeek
      ensures log != [] ==>
                && AreClaims(weekClaims, old(Progress(splitting.currentClaimProgress, user)), splitting.currentWeek,
                             old(splitting.totalEnergyForWeek))
                && (r.Success? <==> forall i :: 0 <= i < |weekClaims| ==> old(Succeeds(weekClaims[i], farmTokenAmount)))
                && (r.Success? ==> r.value == old(EarnedSum(weekClaims, farmTokenAmount)))
                && (r.Success? ==> forall i :: 0 <= i < |weekClaims| ==>
                      IsReward(old(EarnedIn(weekClaims[i], farmTokenAmount)), old(StateOf(weekClaims[i].week)),
                               InForce(log, weekClaims[i].week), Claim(weekClaims[i].energy, farmTokenAmount)))
      ensures r.Success? ==> r.value <= old(BoostedOwed()) && BoostedOwed() == old(BoostedOwed()) - r.value
      ensures r.Success? && log != [] ==>
                && splitting.currentClaimProgress ==
                     Replaced(old(splitting.currentClaimProgress), user, NextProgress(splitting.currentWeek, energy))
                && farmSpent
                   == FarmSpent(old(farmSpent),
                                FirstClaim(old(Progress(splitting.currentClaimProgress, user)), splitting.currentWeek),
                                splitting.currentWeek, farmTokenAmount)
      ensures r.Failure? ==> Untouched()
    {
      hide CountersOk, StateOf, BoostedOwed, InForce, Represents, Succeeds, EarnedSum, SpentCovers, AreClaims,
           WeekBooksOk, SpentOk, FarmSpent, IsSpentFor, AreInTurn, Replaced, NextProgress, EarnedIn, IsReward;
      ConfigIs();
      if boostedYieldsConfig.None? {
        return Success(0), [];
      }
      AllEarnedAre(farmTokenAmount);
      ghost var prev := Progress(splitting.currentClaimProgress, user);
      var config := new BoostedYieldsConfig.Load(boostedYieldsConfig.value);
      var updated := config.Update(splitting.currentWeek, None, log);
      var saved := Saved();
      ghost var ghostSaved := GhostSaved();
      var cs := StartClaims(user, energy, farmTokenAmount);
      weekClaims := cs;
      r := PayClaims(cs, farmTokenAmount, config, FirstClaim(prev, splitting.currentWeek), ghostSaved.spent);
      if r.Failure? {
        Revert(saved, ghostSaved);
        assert Untouched();
      }
    }

    ghost method CountFarmAmounts(first: Week, farmAmount: nat)
      requires CountersOk()
      modifies this`farmSpent
      ensures farmSpent == FarmSpent(old(farmSpent), first, splitting.currentWeek, farmAmount)
      ensures CountersOk() && BoostedOwed() == old(BoostedOwed())
      ensures forall w: Week :: StateOf(w) == old(StateOf(w))
    {
      hide WeekOk, ConfigOk, SweptOk, SumRange, FarmSpent;
      farmSpent := FarmSpent(farmSpent, first, splitting.currentWeek, farmAmount);
      forall w: Week
        ensures WeekOk(StateOf(w), w, splitting.currentWeek, lastUndistributedBoostedRewardsCollectWeek, log)
      {
        assert old(WeekOk(StateOf(w), w, splitting.currentWeek, lastUndistributedBoostedRewardsCollectWeek, log));
      }
    }

    function Saved(): Counters
      reads this, splitting
    {
      Counters(boostedYieldsConfig, accumulatedRewardsForWeek, remainingBoostedRewardsToDistribute, splitting.Saved())
    }

    ghost function GhostSaved(): GhostCounters
      reads this, splitting
    {
      GhostCounters(collected, claims, paid, splitting.residue, splitting.spent)
    }

    /** A revert takes back what a claim wrote. */
    method Revert(s: Counters, ghost g: GhostCounters)
      modifies this`boostedYieldsConfig, this`accumulatedRewardsForWeek, this`remainingBoostedRewardsToDistribute,
               this`collected, this`claims, this`paid, splitting`lastGlobalUpdateWeek, splitting`totalEnergyForWeek,
               splitting`totalLockedTokensForWeek, splitting`totalRewardsForWeek, splitting`firstBucketId,
               splitting`lockedTokensInBucket, splitting`residue, splitting`currentClaimProgress, splitting`spent
      ensures Saved() == s && GhostSaved() == g
    {
      boostedYieldsConfig, accumulatedRewardsForWeek := s.boostedYieldsConfig, s.accumulatedRewardsForWeek;
      remainingBoostedRewardsToDistribute := s.remainingBoostedRewardsToDistribute;
      collected, claims := g.collected, g.claims;
      paid := g.paid;
      splitting.Revert(s.splitting, g.residue, g.spent);
    }

    twostate predicate Untouched()
      reads this, splitting
    {
      unchanged(this) && unchanged(splitting)
    }

    lemma ConfigIs()
      requires CountersOk()
      ensures boostedYieldsConfig.None? <==> log == []
      ensures 0 < splitting.currentWeek
      ensures boostedYieldsConfig.Some? ==>
                Represents(boostedYieldsConfig.value, log)
                && boostedYieldsConfig.value.lastUpdateWeek <= splitting.currentWeek
    {
    }

    /** The weeks that can be claimed are as they were before the energies were updated. */
    twostate lemma SameClaims(new cs: seq<WeekClaim>, new prev: Option<ClaimProgress>, new farmAmount: nat)
      requires unchanged(this) && splitting.currentWeek == old(splitting.currentWeek) > 0 && log != []
      requires prev.Some? ==> 0 < prev.value.week <= splitting.currentWeek
      requires AreClaims(cs, prev, splitting.currentWeek, splitting.totalEnergyForWeek)
      requires OthersKept(old(splitting.totalEnergyForWeek), splitting.totalEnergyForWeek,
                          old(splitting.lastGlobalUpdateWeek), splitting.currentWeek)
      requires forall w: Week :: StateOf(w) == AfterUpdate(old(StateOf(w)), w, old(splitting.lastGlobalUpdateWeek),
                                                           splitting.currentWeek,
                                                           At(splitting.totalEnergyForWeek, splitting.currentWeek))
      ensures AreClaims(cs, prev, splitting.currentWeek, old(splitting.totalEnergyForWeek))
      ensures AreInTurn(cs, FirstClaim(prev, splitting.currentWeek), splitting.currentWeek)
      ensures forall i :: 0 <= i < |cs| ==> StateOf(cs[i].week) == old(StateOf(cs[i].week))
      ensures forall i :: 0 <= i < |cs| ==> Succeeds(cs[i], farmAmount) == old(Succeeds(cs[i], farmAmount))
      ensures EarnedSum(cs, farmAmount) == old(EarnedSum(cs, farmAmount))
    {
      hide StateOf, InForce, ClaimSucceeds, EnergyAt;
      forall i | 0 <= i < |cs|
        ensures StateOf(cs[i].week) == old(StateOf(cs[i].week))
        ensures At(splitting.totalEnergyForWeek, cs[i].week) == old(At(splitting.totalEnergyForWeek, cs[i].week))
      {
        var week := cs[i].week;
        assert Stored(splitting.totalEnergyForWeek, week) == old(Stored(splitting.totalEnergyForWeek, week));
      }
      SameEarned(cs, farmAmount);
    }

    twostate lemma {:induction false} SameEarned(new cs: seq<WeekClaim>, new farmAmount: nat)
      requires log == old(log) != []
      requires forall i :: 0 <= i < |cs| ==> StateOf(cs[i].week) == old(StateOf(cs[i].week))
      ensures EarnedSum(cs, farmAmount) == old(EarnedSum(cs, farmAmount))
    {
      hide StateOf, InForce, Earned;
      if cs != [] {
        SameEarned(cs[..|cs| - 1], farmAmount);
      }
    }

    /** The claims that were paid were counted. */
    twostate lemma StillCovered(new cs: seq<WeekClaim>, new first: Week, new farmAmount: nat,
                                new spentBefore: map<Week, nat>)
      requires log == old(log) != [] && splitting.currentWeek == old(splitting.currentWeek)
      requires AreInTurn(cs, first, splitting.currentWeek) && IsSpentFor(cs, first, spentBefore, splitting.spent)
      requires SpentCovers(old(claims), spentBefore, old(farmSpent))
      requires farmSpent == FarmSpent(old(farmSpent), first, splitting.currentWeek, farmAmount)
      requires forall w: Week :: w < first || splitting.currentWeek <= w ==> StateOf(w) == old(StateOf(w))
      requires forall i :: 0 <= i < |cs| ==>
                 IsPaid(old(StateOf(cs[i].week)), StateOf(cs[i].week), InForce(log, cs[i].week),
                        Claim(cs[i].energy, farmAmount))
      ensures SpentCovers(claims, splitting.spent, farmSpent)
    {
      hide EnergySum, FarmSum, EarnsReward, Earned, InForce, At, EnergyFor, FarmSpent, StateOf;
      forall w: Week
        ensures EnergySum(ClaimsAt(claims, w)) <= At(splitting.spent, w)
        ensures FarmSum(ClaimsAt(claims, w)) <= At(farmSpent, w)
      {
        var energySpent, farm := EnergyFor(cs, first, w), if first <= w < splitting.currentWeek then farmAmount else 0;
        ClaimsOf(w);
        FarmSpentAt(old(farmSpent), first, splitting.currentWeek, farmAmount, w);
        assert EnergySum(old(ClaimsAt(claims, w))) <= At(spentBefore, w);
        assert FarmSum(old(ClaimsAt(claims, w))) <= At(old(farmSpent), w);
        assert At(splitting.spent, w) == At(spentBefore, w) + energySpent;
        if first <= w < splitting.currentWeek {
          var c := cs[w - first];
          assert c.week == w && IsPaid(old(StateOf(c.week)), StateOf(c.week), InForce(log, c.week),
                                       Claim(c.energy, farmAmount));
          EnergyForIs(cs, first, w);
          OneMoreClaim(old(ClaimsAt(claims, w)), ClaimsAt(claims, w), Claim(c.energy, farmAmount));
        }
      }
    }

    twostate lemma ClaimsOf(w: Week)
      ensures StateOf(w).claims == ClaimsAt(claims, w) && old(StateOf(w)).claims == old(ClaimsAt(claims, w))
    {
    }

    method SweepWeeks(first: Week, last: Week)
      requires 0 < first <= last
      modifies this`remainingBoostedRewardsToDistribute, this`undistributedBoostedRewards
      ensures undistributedBoostedRewards
           == old(undistributedBoostedRewards) + SumRange(old(remainingBoostedRewardsToDistribute), first, last)
      ensures forall w: Week :: At(remainingBoostedRewardsToDistribute, w) ==
                if first <= w <= last then 0 else old(At(remainingBoostedRewardsToDistribute, w))
    {
      ghost var before := remainingBoostedRewardsToDistribute;
      for week := first to last + 1
        invariant undistributedBoostedRewards == old(undistributedBoostedRewards) + SumRange(before, first, week - 1)
        invariant forall w: Week :: At(remainingBoostedRewardsToDistribute, w) ==
                    if first <= w < week then 0 else At(before, w)
      {
        AtRemoved(remainingBoostedRewardsToDistribute, week);
        assert At(remainingBoostedRewardsToDistribute, week) == At(before, week);
        var rewardsToDistribute := At(remainingBoostedRewardsToDistribute, week);
        remainingBoostedRewardsToDistribute := remainingBoostedRewardsToDistribute - {week};
        undistributedBoostedRewards := undistributedBoostedRewards + rewardsToDistribute;
      }
    }

    /** What is left of the weeks that can no longer be claimed goes to the owner, once. A week is left with nothing iff
        it was claimed from, or nothing was set aside for it: rewards no one claimed from stay where they are. */
    method CollectUndistributedBoostedRewards() returns (ok: bool)
      requires Valid()
      modifies this`remainingBoostedRewardsToDistribute, this`undistributedBoostedRewards,
               this`lastUndistributedBoostedRewardsCollectWeek, this`swept
      ensures Valid() && BoostedOwed() == old(BoostedOwed())
      ensures ok <==> splitting.currentWeek > COLLECT_REWARDS_OFFSET
      ensures ok ==>
                && lastUndistributedBoostedRewardsCollectWeek == splitting.currentWeek - COLLECT_REWARDS_OFFSET
                && undistributedBoostedRewards == old(undistributedBoostedRewards)
                     + SumRange(old(remainingBoostedRewardsToDistribute),
                                old(lastUndistributedBoostedRewardsCollectWeek) + 1,
                                splitting.currentWeek - COLLECT_REWARDS_OFFSET)
                && forall w: Week :: StateOf(w) ==
                     if old(lastUndistributedBoostedRewardsCollectWeek) < w
                          <= splitting.currentWeek - COLLECT_REWARDS_OFFSET
                     then old(StateOf(w)).(remaining := 0, swept := old(StateOf(w)).remaining) else old(StateOf(w))
      ensures forall w: Week :: w <= lastUndistributedBoostedRewardsCollectWeek ==>
                && StateOf(w).remaining == 0
                && (StateOf(w).accumulated == 0 <==> w in collected || At(taken, w) == 0)
      ensures !ok ==> unchanged(this)
    {
      hide PaidOk, Represents, SumRange, SpentCovers, WeekBooksOk, SpentOk;
      if splitting.currentWeek <= COLLECT_REWARDS_OFFSET {
        return false;
      }
      var firstCollectWeek := lastUndistributedBoostedRewardsCollectWeek + 1;
      var lastCollectWeek := splitting.currentWeek - COLLECT_REWARDS_OFFSET;
      if firstCollectWeek > lastCollectWeek {
        NoWeeks(remainingBoostedRewardsToDistribute, firstCollectWeek, lastCollectWeek);
        return true;
      }
      Conserved();
      Sweep(firstCollectWeek, lastCollectWeek);
      Conserved();
      return true;
    }

    method Sweep(firstCollectWeek: Week, lastCollectWeek: Week)
      requires CountersOk() && firstCollectWeek == lastUndistributedBoostedRewardsCollectWeek + 1 <= lastCollectWeek
      requires lastCollectWeek + COLLECT_REWARDS_OFFSET == splitting.currentWeek
      modifies this`remainingBoostedRewardsToDistribute, this`undistributedBoostedRewards,
               this`lastUndistributedBoostedRewardsCollectWeek, this`swept
      ensures CountersOk() && lastUndistributedBoostedRewardsCollectWeek == lastCollectWeek
      ensures undistributedBoostedRewards == old(undistributedBoostedRewards)
                + SumRange(old(remainingBoostedRewardsToDistribute), firstCollectWeek, lastCollectWeek)
      ensures forall w: Week :: StateOf(w) ==
                if firstCollectWeek <= w <= lastCollectWeek
                then old(StateOf(w)).(remaining := 0, swept := old(StateOf(w)).remaining)
                else old(StateOf(w))
    {
      hide WeekOk, ConfigOk, SumRange, SweptToo;
      SweepWeeks(firstCollectWeek, lastCollectWeek);
      lastUndistributedBoostedRewardsCollectWeek := lastCollectWeek;
      SweptAt(swept, old(remainingBoostedRewardsToDistribute), firstCollectWeek, lastCollectWeek);
      swept := SweptToo(swept, old(remainingBoostedRewardsToDistribute), firstCollectWeek, lastCollectWeek);
      forall w: Week
        ensures StateOf(w) == if firstCollectWeek <= w <= lastCollectWeek
                              then old(StateOf(w)).(remaining := 0, swept := old(StateOf(w)).remaining)
                              else old(StateOf(w))
        ensures WeekOk(StateOf(w), w, splitting.currentWeek, lastCollectWeek, log)
      {
        assert old(WeekOk(StateOf(w), w, splitting.currentWeek, lastUndistributedBoostedRewardsCollectWeek, log));
        WeekSwept(old(StateOf(w)), w, splitting.currentWeek, firstCollectWeek - 1, lastCollectWeek, log);
      }
    }

    twostate lemma WeeksKept(week: Week)
      requires old(WeeksOk())
      requires splitting.currentWeek == old(splitting.currentWeek) && log == old(log)
      requires lastUndistributedBoostedRewardsCollectWeek == old(lastUndistributedBoostedRewardsCollectWeek)
      requires forall w: Week :: w != week ==> StateOf(w) == old(StateOf(w))
      requires WeekOk(StateOf(week), week, splitting.currentWeek, lastUndistributedBoostedRewardsCollectWeek, log)
      ensures WeeksOk()
    {
      hide WeekOk;
      forall w: Week
        ensures WeekOk(StateOf(w), w, splitting.currentWeek, lastUndistributedBoostedRewardsCollectWeek, log)
      {
        assert old(WeekOk(StateOf(w), w, splitting.currentWeek, lastUndistributedBoostedRewardsCollectWeek, log));
      }
    }
  }

}
