/** The farm amounts that users claim with, against the weekly farm supplies. */
module FarmAmounts {
  import opened Chain
  import opened Wrappers
  import opened FarmTokens
  import opened FarmBooks
  import opened BoostedFactors
  import opened BoostedYields
  import opened WeeklyEnergyBooks

  /** The positions of the users who can still claim a week. */
  ghost function Held(positions: map<Address, nat>, ps: map<Address, ClaimProgress>, week: Week): map<Address, nat> {
    map u | u in ps :: if ps[u].week <= week then Position(positions, u) else 0
  }

  ghost function HeldFor(positions: map<Address, nat>, ps: map<Address, ClaimProgress>, week: Week): nat {
    Sum(Held(positions, ps, week))
  }

  lemma HeldReplaced(positions: map<Address, nat>, ps: map<Address, ClaimProgress>, u: Address,
                     next: Option<ClaimProgress>, week: Week)
    requires next.Some? ==> week < next.value.week
    ensures HeldFor(positions, Replaced(ps, u, next), week)
         == HeldFor(positions, ps, week) - if u in ps && ps[u].week <= week then Position(positions, u) else 0
  {
    hide Position, Sum;
    var before, after := Held(positions, ps, week), Held(positions, Replaced(ps, u, next), week);
    assert before - {u} == after - {u};
    if u in ps {
      SumRemove(before, u);
    } else {
      assert before - {u} == before;
    }
    if next.Some? {
      SumRemove(after, u);
    } else {
      assert after - {u} == after;
    }
  }

  lemma {:induction false} SumAtMost(m: map<Address, nat>, m': map<Address, nat>)
    requires m.Keys == m'.Keys && forall u :: u in m ==> m[u] <= m'[u]
    ensures Sum(m) <= Sum(m')
    decreases |m|
  {
    if u :| u in m {
      SumRemove(m, u);
      SumRemove(m', u);
      SumAtMost(m - {u}, m' - {u});
    }
  }

  lemma {:induction false} SumWithin(m: map<Address, nat>, owners: multiset<Address>)
    requires forall u :: u in m ==> m[u] <= owners[u]
    ensures Sum(m) <= |owners|
    decreases |m|
  {
    if u :| u in m {
      SumRemove(m, u);
      SumWithin(m - {u}, owners[u := 0]);
      assert owners == owners[u := 0][u := owners[u]];
    }
  }

  /** What can be claimed with never exceeds the supply of the moment. */
  lemma HeldWithinSupply(positions: map<Address, nat>, owners: multiset<Address>, ps: map<Address, ClaimProgress>,
                         week: Week)
    requires PositionsOk(positions, owners)
    ensures HeldFor(positions, ps, week) <= |owners|
  {
    forall u | u in ps
      ensures Position(positions, u) <= owners[u]
    {
    }
    SumWithin(Held(positions, ps, week), owners);
  }

  /** What was claimed with for a past week, and what still can be, is within the farm supply the week ended with: for
      weeks that ended under a configuration, and for those among the earlier ones of which it was so when the first
      came. */
  ghost predicate AmountsOk(supplies: map<Week, nat>, spent: map<Week, nat>, positions: map<Address, nat>,
                            ps: map<Address, ClaimProgress>, currentWeek: Week, from: Week, early: set<Week>) {
    && (forall w: Week :: w in supplies ==> w <= currentWeek)
    && (forall w: Week :: currentWeek <= w ==> At(spent, w) == 0)
    && (forall w: Week :: w in supplies && w < currentWeek && (from <= w || w in early) ==>
          At(spent, w) + HeldFor(positions, ps, w) <= supplies[w])
  }

  lemma WeekEndsWithin(supplies: map<Week, nat>, spent: map<Week, nat>, positions: map<Address, nat>,
                       owners: multiset<Address>, ps: map<Address, ClaimProgress>, currentWeek: Week, from: Week,
                       early: set<Week>, week: Week, from': Week)
    requires AmountsOk(supplies, spent, positions, ps, currentWeek, from, early) && PositionsOk(positions, owners)
    requires currentWeek in supplies ==> supplies[currentWeek] == |owners|
    requires currentWeek <= week && (from' == from || from' == week)
    ensures (forall w: Week :: w in supplies ==> w <= currentWeek)
    ensures from' == from || from == currentWeek ==> AmountsOk(supplies, spent, positions, ps, week, from', early)
  {
    hide HeldFor, PositionsOk;
    HeldWithinSupply(positions, owners, ps, currentWeek);
  }

  lemma ClaimedWithin(supplies: map<Week, nat>, spent: map<Week, nat>, positions: map<Address, nat>,
                      ps: map<Address, ClaimProgress>, currentWeek: Week, from: Week, early: set<Week>, user: Address,
                      next: Option<ClaimProgress>, first: Week)
    requires AmountsOk(supplies, spent, positions, ps, currentWeek, from, early)
    requires next.Some? ==> next.value.week == currentWeek
    requires first == currentWeek || (user in ps && ps[user].week <= first <= currentWeek)
    ensures AmountsOk(supplies, FarmSpent(spent, first, currentWeek, Position(positions, user)), positions,
                      Replaced(ps, user, next), currentWeek, from, early)
  {
    hide HeldFor, Position, FarmSpent, Replaced;
    var spent' := FarmSpent(spent, first, currentWeek, Position(positions, user));
    forall w: Week
      ensures At(spent', w) == At(spent, w) + if first <= w < currentWeek then Position(positions, user) else 0
    {
      FarmSpentAt(spent, first, currentWeek, Position(positions, user), w);
    }
    forall w: Week | w in supplies && w < currentWeek && (from <= w || w in early)
      ensures At(spent', w) + HeldFor(positions, Replaced(ps, user, next), w) <= supplies[w]
    {
      HeldReplaced(positions, ps, user, next, w);
    }
  }

  lemma UpdatedWithin(supplies: map<Week, nat>, spent: map<Week, nat>, positions: map<Address, nat>,
                      ps: map<Address, ClaimProgress>, currentWeek: Week, from: Week, early: set<Week>, user: Address,
                      next: Option<ClaimProgress>)
    requires AmountsOk(supplies, spent, positions, ps, currentWeek, from, early)
    requires next.Some? ==> next.value.week == currentWeek
    ensures AmountsOk(supplies, spent, positions, Replaced(ps, user, next), currentWeek, from, early)
  {
    hide HeldFor, Position, Replaced;
    forall w: Week | w in supplies && w < currentWeek && (from <= w || w in early)
      ensures At(spent, w) + HeldFor(positions, Replaced(ps, user, next), w) <= supplies[w]
    {
      HeldReplaced(positions, ps, user, next, w);
    }
  }

  /** Only a user who has nothing left to claim gets a larger position. */
  ghost predicate OnlyUserGrows(positions: map<Address, nat>, positions': map<Address, nat>, user: Address) {
    forall u :: u != user ==> Position(positions', u) <= Position(positions, u)
  }

  lemma MovedWithin(supplies: map<Week, nat>, spent: map<Week, nat>, positions: map<Address, nat>,
                    positions': map<Address, nat>, ps: map<Address, ClaimProgress>, currentWeek: Week, from: Week,
                    early: set<Week>, user: Address)
    requires AmountsOk(supplies, spent, positions, ps, currentWeek, from, early)
    requires OnlyUserGrows(positions, positions', user)
    requires (user in ps ==> ps[user].week == currentWeek) || (from == currentWeek && early == {})
    ensures AmountsOk(supplies, spent, positions', ps, currentWeek, from, early)
  {
    hide Position, Sum;
    forall w: Week | w in supplies && w < currentWeek && (from <= w || w in early)
      ensures HeldFor(positions', ps, w) <= HeldFor(positions, ps, w)
    {
      SumAtMost(Held(positions', ps, w), Held(positions, ps, w));
    }
  }

  lemma ExchangedGrows(positions: map<Address, nat>, owners: multiset<Address>, positions': map<Address, nat>,
                       owners': multiset<Address>, gone: multiset<Address>, amount: nat, user: Address)
    requires PositionsOk(positions, owners) && PositionsOk(positions', owners')
    requires owners' == Exchanged(owners, gone, amount, user) || owners' == Without(owners, gone)
    ensures OnlyUserGrows(positions, positions', user)
  {
    forall u | u != user
      ensures Position(positions', u) <= Position(positions, u)
    {
      assert owners'[u] <= owners[u];
    }
  }

  lemma SupplySet(supplies: map<Week, nat>, spent: map<Week, nat>, positions: map<Address, nat>,
                  ps: map<Address, ClaimProgress>, currentWeek: Week, from: Week, early: set<Week>, supply: nat)
    requires AmountsOk(supplies, spent, positions, ps, currentWeek, from, early)
    ensures AmountsOk(supplies[currentWeek := supply], spent, positions, ps, currentWeek, from, early)
  {
    hide HeldFor;
  }

  /** The past weeks that all who can still claim them can claim within their supply. */
  ghost function WithinSupply(supplies: map<Week, nat>, positions: map<Address, nat>, ps: map<Address, ClaimProgress>,
                              currentWeek: Week): set<Week> {
    set w: Week | w < currentWeek && (w in supplies ==> HeldFor(positions, ps, w) <= supplies[w])
  }

  lemma FirstConfigured(supplies: map<Week, nat>, spent: map<Week, nat>, positions: map<Address, nat>,
                        ps: map<Address, ClaimProgress>, currentWeek: Week, from: Week, early: set<Week>)
    requires AmountsOk(supplies, spent, positions, ps, currentWeek, from, early)
    requires forall w: Week :: At(spent, w) == 0
    ensures AmountsOk(supplies, spent, positions, ps, currentWeek, currentWeek,
                      WithinSupply(supplies, positions, ps, currentWeek))
  {
    hide HeldFor;
  }

  /** What a user can claim with is left in the supply of a week that is within. */
  lemma UserWithin(supplies: map<Week, nat>, spent: map<Week, nat>, positions: map<Address, nat>,
                   ps: map<Address, ClaimProgress>, currentWeek: Week, from: Week, early: set<Week>, user: Address,
                   week: Week)
    requires AmountsOk(supplies, spent, positions, ps, currentWeek, from, early) && (from <= week || week in early)
    requires user in ps && ps[user].week <= week < currentWeek && week in supplies
    ensures At(spent, week) + Position(positions, user) <= supplies[week]
  {
    hide Position;
    SumRemove(Held(positions, ps, week), user);
  }
}

/** farm-staking with the weekly counters of its boosted rewards and the energies they are shared by. */
module BoostedStaking {
  import opened Chain
  import opened Wrappers
  import opened Arith
  import opened RewardSlices
  import opened EnergyLedger
  import opened FarmTokens
  import opened FarmBooks
  import opened FarmStaking
  import opened FarmAmounts
  import opened BoostedFactors
  import opened BoostedPayouts
  import opened BoostedYields
  import opened WeeklyEnergyBooks
  import opened WeeklyRewards

  lemma SameCut(cut: nat, cut': nat, fullReward: nat, percentage: nat)
    requires IsFloor(cut, fullReward * percentage, MAX_PERCENT) && IsFloor(cut', fullReward * percentage, MAX_PERCENT)
    ensures cut == cut'
  {
    FloorExact(cut, fullReward * percentage, MAX_PERCENT);
    FloorExact(cut', fullReward * percentage, MAX_PERCENT);
  }

  lemma SameReplaced(ps: map<Address, ClaimProgress>, ps': map<Address, ClaimProgress>, u: Address,
                     next: Option<ClaimProgress>)
    requires ps - {u} == ps' - {u}
    ensures Replaced(ps, u, next) == Replaced(ps', u, next)
  {
    forall v | v != u
      ensures v in ps <==> v in ps'
      ensures v in ps ==> ps[v] == ps'[v]
    {
      assert v in ps - {u} <==> v in ps' - {u};
    }
  }

  /** One contract's storage: the books of the farm, and the weeks of its boosted rewards. */
  class BoostedFarm {
    const farm: StakingFarm
    const weeks: FarmBoostedYields
    /** Weeks before the first configuration whose claims were within their supply when it was set. */
    ghost var early: set<Week>

    ghost function CurrentWeek(): Week
      reads weeks.splitting
    {
      weeks.splitting.currentWeek
    }

    ghost function Users(): map<Address, ClaimProgress>
      reads weeks.splitting
    {
      weeks.splitting.currentClaimProgress
    }

    /** From the first configuration on, every position is claimed with before it grows. */
    ghost function From(): Week
      reads weeks, weeks.splitting
    {
      if weeks.log == [] then weeks.splitting.currentWeek else weeks.log[0].week
    }

    /** What the books owe to boosted claims is what the weeks hold. */
    ghost predicate Agree()
      reads farm, weeks, weeks.splitting
    {
      && farm.Valid() && weeks.Valid() && farm.boostedOwed == weeks.BoostedOwed()
      && farm.boostedYieldsRewardsPercentage == weeks.boostedYieldsRewardsPercentage
    }

    ghost predicate Within()
      reads this, farm, weeks, weeks.splitting
    {
      && AmountsOk(weeks.farmSupplyForWeek, weeks.farmSpent, farm.userTotalFarmPosition, Users(), CurrentWeek(), From(),
                   early)
      && (weeks.log == [] ==> early == {} && forall w: Week :: At(weeks.farmSpent, w) == 0)
    }

    ghost predicate Valid()
      reads this, farm, weeks, weeks.splitting
    {
      && Agree() && Within()
      && (CurrentWeek() in weeks.farmSupplyForWeek ==> weeks.farmSupplyForWeek[CurrentWeek()] == farm.farmTokenSupply)
    }

    constructor (divisionSafetyConstant: nat, maxApr: nat)
      requires divisionSafetyConstant > 0 && maxApr > 0
      ensures Valid() && fresh(farm) && fresh(weeks) && fresh(weeks.splitting)
      ensures farm.divisionSafetyConstant == divisionSafetyConstant && farm.maxAnnualPercentageRewards == maxApr
      ensures farm.Stored() == Books(0, 0, 0, 0, 0, 0, 0) && farm.rewardCapacity == 0
      ensures farm.owners == multiset{} == farm.stakes
      ensures CurrentWeek() == 1 && weeks.log == [] && Users() == map[] && weeks.farmSupplyForWeek == map[]
      ensures farm.boostedYieldsRewardsPercentage == 0 && farm.blockNonce == farm.lastRewardBlockNonce
    {
      hide BooksOk, PositionsOk, WeekBooksOk, SpentOk, SpentCovers;
      farm := new StakingFarm(divisionSafetyConstant, maxApr);
      weeks := new FarmBoostedYields();
      early := {};
    }

    // ---- What a user claims ----

    ghost function PositionOf(user: Address): nat
      reads farm
    {
      Position(farm.userTotalFarmPosition, user)
    }

    /** The weeks a user has not claimed, at most four, as they stand now. */
    ghost function UserClaims(user: Address): seq<WeekClaim>
      requires user in Users() ==> Users()[user].week <= CurrentWeek()
      reads weeks, weeks.splitting
    {
      if weeks.log == [] then []
      else ClaimsOf(Progress(Users(), user), CurrentWeek(), weeks.splitting.totalEnergyForWeek)
    }

    ghost predicate SeenBefore(user: Address)
      reads weeks.splitting
    {
      user in Users() ==> Users()[user].week <= CurrentWeek()
    }

    ghost predicate CanClaim(user: Address)
      requires SeenBefore(user)
      reads farm, weeks, weeks.splitting
    {
      weeks.log == [] ||
      forall i :: 0 <= i < |UserClaims(user)| ==> weeks.Succeeds(UserClaims(user)[i], PositionOf(user))
    }

    ghost function BoostedReward(user: Address): nat
      requires SeenBefore(user)
      reads farm, weeks, weeks.splitting
    {
      if weeks.log == [] then 0 else weeks.EarnedSum(UserClaims(user), PositionOf(user))
    }

    lemma AllSeenBefore(user: Address)
      requires weeks.Valid()
      ensures SeenBefore(user)
    {
    }

    /** A user who claims weeks that are within their supply is paid for all of them: only a configuration whose
        constants are both zero can make the claim fail. */
    lemma ClaimsSucceed(user: Address)
      requires Valid() && SeenBefore(user) && weeks.log != []
      requires forall i :: 0 <= i < |UserClaims(user)| ==>
                From() <= UserClaims(user)[i].week || UserClaims(user)[i].week in early
      ensures CanClaim(user) <==>
              forall i :: 0 <= i < |UserClaims(user)| ==> weeks.HasConstants(UserClaims(user)[i], PositionOf(user))
    {
      hide FarmBoostedYields.Valid, FarmBoostedYields.Succeeds, FarmBoostedYields.HasConstants, AmountsOk, Position,
           EnergyAt;
      forall i | 0 <= i < |UserClaims(user)|
        ensures weeks.Succeeds(UserClaims(user)[i], PositionOf(user)) <==>
                  weeks.HasConstants(UserClaims(user)[i], PositionOf(user))
      {
        var c := UserClaims(user)[i];
        assert c == WeekClaim(c.week, EnergyAt(Users()[user], c.week), At(weeks.splitting.totalEnergyForWeek, c.week));
        if c.week in weeks.farmSupplyForWeek {
          UserWithin(weeks.farmSupplyForWeek, weeks.farmSpent, farm.userTotalFarmPosition, Users(), CurrentWeek(),
                     From(), early, user, c.week);
        }
        weeks.UserSucceeds(user, c, PositionOf(user));
      }
    }

    /** The boosted claim of an endpoint, before the farm pays it. */
    method ClaimBoosted(user: Address, energy: EnergyEntry) returns (r: Result<nat>)
      requires Valid()
      modifies weeks, weeks.splitting
      ensures old(SeenBefore(user)) && (r.Success? <==> old(CanClaim(user)))
      ensures r.Success? ==>
                r.value == old(BoostedReward(user)) <= farm.boostedOwed
                && farm.boostedOwed == weeks.BoostedOwed() + r.value
      ensures r.Success? ==>
                weeks.Valid() && Within() && CurrentWeek() == old(CurrentWeek()) && weeks.log == old(weeks.log)
      ensures r.Success? ==> farm.boostedYieldsRewardsPercentage == weeks.boostedYieldsRewardsPercentage
      ensures r.Success? ==> weeks.farmSupplyForWeek == old(weeks.farmSupplyForWeek)
      ensures r.Success? && weeks.log != [] && user in Users() ==> Users()[user].week == CurrentWeek()
      ensures r.Failure? ==> Valid() && unchanged(weeks) && unchanged(weeks.splitting)
      ensures Users() - {user} == old(Users()) - {user}
      ensures old(weeks.log) == [] ==> Users() == old(Users()) && PastWeeksKept()
    {
      hide FarmBoostedYields.CountersOk, FarmBoostedYields.StateOf, FarmBoostedYields.BoostedOwed,
           FarmBoostedYields.Succeeds, FarmBoostedYields.EarnedSum, AmountsOk, EnergyAt, WeekBooksOk, SpentOk,
           SpentCovers, BooksOk, PositionsOk, FarmSpent;
      AllSeenBefore(user);
      ghost var prev := Progress(Users(), user);
      ghost var claims := UserClaims(user);
      var position := if user in farm.userTotalFarmPosition then farm.userTotalFarmPosition[user] else 0;
      ghost var weekClaims;
      r, weekClaims := weeks.ClaimBoostedYieldsRewards(user, position, energy);
      if weeks.log != [] {
        ClaimsDetermined(weekClaims, claims, prev, CurrentWeek(), old(weeks.splitting.totalEnergyForWeek));
        if r.Success? {
          ClaimedWithin(weeks.farmSupplyForWeek, old(weeks.farmSpent), farm.userTotalFarmPosition, old(Users()),
                        CurrentWeek(), From(), early, user, NextProgress(CurrentWeek(), energy),
                        FirstClaim(prev, CurrentWeek()));
        }
      }
    }

    // ---- The steps of an endpoint ----

    twostate predicate Untouched()
      reads farm, weeks, weeks.splitting
    {
      unchanged(farm) && unchanged(weeks) && unchanged(weeks.splitting)
    }

    /** The weeks that can be claimed are as they were. */
    twostate predicate PastWeeksKept()
      reads weeks, weeks.splitting
    {
      forall w: Week :: w < CurrentWeek() < w + COLLECT_REWARDS_OFFSET ==> weeks.StateOf(w) == old(weeks.StateOf(w))
    }

    /** The boosted cut of a settlement is set aside for the current week. */
    method SetAside(accumulatedBefore: nat, ghost due: Accrual)
      requires weeks.Valid() && Within() && farm.accumulatedRewards == accumulatedBefore + due.total
      requires farm.boostedOwed == weeks.BoostedOwed() + due.boosted
      requires IsFloor(due.boosted, due.total * weeks.boostedYieldsRewardsPercentage, MAX_PERCENT)
      modifies weeks`accumulatedRewardsForWeek, weeks`taken
      ensures weeks.Valid() && Within() && farm.boostedOwed == weeks.BoostedOwed()
      ensures PastWeeksKept()
    {
      hide FarmBoostedYields.CountersOk, FarmBoostedYields.StateOf, FarmBoostedYields.BoostedOwed, AmountsOk,
           WeekBooksOk, SpentOk, SpentCovers;
      var total := farm.accumulatedRewards - accumulatedBefore;
      var base, boosted := weeks.TakeRewardSlice(total);
      SameCut(due.boosted, boosted, total, weeks.boostedYieldsRewardsPercentage);
    }

    method WriteSupply()
      requires weeks.Valid() && Within() && farm.boostedOwed == weeks.BoostedOwed()
      modifies weeks`farmSupplyForWeek
      ensures weeks.Valid() && Within() && farm.boostedOwed == weeks.BoostedOwed()
      ensures weeks.farmSupplyForWeek == old(weeks.farmSupplyForWeek)[CurrentWeek() := farm.farmTokenSupply]
      ensures PastWeeksKept()
    {
      hide FarmBoostedYields.CountersOk, FarmBoostedYields.StateOf, FarmBoostedYields.BoostedOwed, AmountsOk,
           WeekBooksOk, SpentOk, SpentCovers;
      SupplySet(weeks.farmSupplyForWeek, weeks.farmSpent, farm.userTotalFarmPosition, Users(), CurrentWeek(), From(),
                early, farm.farmTokenSupply);
      weeks.SetFarmSupplyForCurrentWeek(farm.farmTokenSupply);
    }

    /** The end of an endpoint that settles. */
    method Close(accumulatedBefore: nat, ghost due: Accrual)
      requires weeks.Valid() && Within() && farm.accumulatedRewards == accumulatedBefore + due.total
      requires farm.boostedOwed == weeks.BoostedOwed() + due.boosted
      requires IsFloor(due.boosted, due.total * weeks.boostedYieldsRewardsPercentage, MAX_PERCENT)
      modifies weeks`accumulatedRewardsForWeek, weeks`taken, weeks`farmSupplyForWeek
      ensures weeks.Valid() && Within() && farm.boostedOwed == weeks.BoostedOwed()
      ensures weeks.farmSupplyForWeek == old(weeks.farmSupplyForWeek)[CurrentWeek() := farm.farmTokenSupply]
      ensures PastWeeksKept()
    {
      hide FarmBoostedYields.Valid, FarmBoostedYields.BoostedOwed, BoostedFarm.Within, IsFloor;
      SetAside(accumulatedBefore, due);
      WriteSupply();
    }

    method WriteProgress(user: Address, energy: EnergyEntry)
      requires weeks.Valid() && Within() && farm.boostedOwed == weeks.BoostedOwed()
      modifies weeks.splitting
      ensures weeks.Valid() && Within() && farm.boostedOwed == weeks.BoostedOwed()
      ensures CurrentWeek() == old(CurrentWeek())
      ensures Users() == Replaced(old(Users()), user, NextProgress(CurrentWeek(), energy))
      ensures PastWeeksKept()
      ensures weeks.splitting.lastGlobalUpdateWeek == CurrentWeek() && weeks.log == old(weeks.log)
    {
      hide FarmBoostedYields.CountersOk, FarmBoostedYields.StateOf, FarmBoostedYields.BoostedOwed, AmountsOk,
           WeekBooksOk, SpentOk, SpentCovers;
      UpdatedWithin(weeks.farmSupplyForWeek, weeks.farmSpent, farm.userTotalFarmPosition, Users(), CurrentWeek(),
                    From(), early, user, NextProgress(CurrentWeek(), energy));
      weeks.UpdateEnergyAndProgress(user, energy);
    }

    ghost predicate CountsOnlyIfLargeEnough(user: Address)
      reads farm, weeks, weeks.splitting
    {
      weeks.log != [] && user in Users() ==> InForce(weeks.log, CurrentWeek()).minFarmAmount <= PositionOf(user)
    }

    method ClearProgress(user: Address, currentEpoch: Epoch)
      requires weeks.Valid() && Within() && farm.boostedOwed == weeks.BoostedOwed()
      modifies weeks.splitting
      ensures weeks.Valid() && Within() && farm.boostedOwed == weeks.BoostedOwed()
      ensures CurrentWeek() == old(CurrentWeek())
      ensures CountsOnlyIfLargeEnough(user)
      ensures Users() == old(Users()) - {user} || Users() == old(Users())
    {
      hide FarmBoostedYields.StateOf, FarmBoostedYields.BoostedOwed, FarmBoostedYields.WeeksOk, SweptOk, AmountsOk,
           WeekBooksOk, SpentOk, SpentCovers, InForce, Represents;
      UpdatedWithin(weeks.farmSupplyForWeek, weeks.farmSpent, farm.userTotalFarmPosition, Users(), CurrentWeek(),
                    From(), early, user, None);
      var position := if user in farm.userTotalFarmPosition then farm.userTotalFarmPosition[user] else 0;
      weeks.ClearUserEnergyIfNeeded(user, position, currentEpoch);
    }

    /** The end of an endpoint that takes a position out. */
    method CloseAndClear(user: Address, accumulatedBefore: nat, ghost due: Accrual, currentEpoch: Epoch)
      requires weeks.Valid() && Within() && farm.accumulatedRewards == accumulatedBefore + due.total
      requires farm.boostedOwed == weeks.BoostedOwed() + due.boosted
      requires IsFloor(due.boosted, due.total * weeks.boostedYieldsRewardsPercentage, MAX_PERCENT)
      modifies weeks`accumulatedRewardsForWeek, weeks`taken, weeks`farmSupplyForWeek, weeks.splitting
      ensures weeks.Valid() && Within() && farm.boostedOwed == weeks.BoostedOwed()
      ensures weeks.farmSupplyForWeek == old(weeks.farmSupplyForWeek)[CurrentWeek() := farm.farmTokenSupply]
      ensures CurrentWeek() == old(CurrentWeek()) && CountsOnlyIfLargeEnough(user)
    {
      hide FarmBoostedYields.Valid, FarmBoostedYields.BoostedOwed, BoostedFarm.Within, IsFloor,
           BoostedFarm.CountsOnlyIfLargeEnough;
      Close(accumulatedBefore, due);
      ClearProgress(user, currentEpoch);
    }

    /** Positions that moved to a user who has nothing left to claim. */
    lemma Moved(positions: map<Address, nat>, owners: multiset<Address>, gone: multiset<Address>, amount: nat,
                user: Address)
      requires AmountsOk(weeks.farmSupplyForWeek, weeks.farmSpent, positions, Users(), CurrentWeek(), From(), early)
      requires weeks.log == [] ==> early == {} && forall w: Week :: At(weeks.farmSpent, w) == 0
      requires PositionsOk(positions, owners) && PositionsOk(farm.userTotalFarmPosition, farm.owners)
      requires farm.owners == Exchanged(owners, gone, amount, user) || farm.owners == Without(owners, gone)
      requires weeks.log != [] && user in Users() ==> Users()[user].week == CurrentWeek()
      ensures Within()
    {
      hide AmountsOk, PositionsOk, Exchanged, Without, OnlyUserGrows;
      ExchangedGrows(positions, owners, farm.userTotalFarmPosition, farm.owners, gone, amount, user);
      MovedWithin(weeks.farmSupplyForWeek, weeks.farmSpent, positions, farm.userTotalFarmPosition, Users(),
                  CurrentWeek(), From(), early, user);
    }

    // ---- Endpoints of users; `energy` is the user's entry at the energy factory ----
    // The boosted claim comes first. Where the source settles before it, the order makes no difference: a settlement
    // only adds to the current week (SetAside), and a claim only takes from past ones.

    method StakeFarm(user: Address, amount: nat, additional: seq<FarmPayment>, energy: EnergyEntry)
      returns (r: Result<FarmPayment>, reward: nat, ghost due: Accrual)
      requires Valid() && amount > 0
      requires Payable(additional) && StakesOf(additional) <= farm.stakes && OwnersOf(additional) <= farm.owners
      modifies farm, weeks, weeks.splitting
      ensures Valid() && old(SeenBefore(user)) && (r.Success? <==> old(CanClaim(user)))
      ensures r.Success? ==>
                && reward == old(BoostedReward(user))
                && IsAccrual(due, old(farm.RewardDue()), old(farm.farmTokenSupply), farm.divisionSafetyConstant,
                             old(farm.boostedYieldsRewardsPercentage))
                && farm.Stored()
                   == Accrued(Paid(old(farm.Stored()), 0, reward), due)
                      .(farmTokenSupply := old(farm.farmTokenSupply) + amount)
                && farm.owners == Exchanged(old(farm.owners), OwnersOf(additional), r.value.amount, user)
                && farm.stakes == Exchanged(old(farm.stakes), StakesOf(additional), r.value.amount,
                                            r.value.attributes.rewardPerShare)
                && r.value.amount == r.value.attributes.currentFarmAmount == |StakesOf(additional)| + amount
                && r.value.attributes == MergedAll(Attributes(farm.rewardPerShare, 0, amount, user), additional,
                                                   |additional|)
      ensures r.Success? ==>
                weeks.farmSupplyForWeek == old(weeks.farmSupplyForWeek)[CurrentWeek() := farm.farmTokenSupply]
      ensures r.Success? ==> farm.blockNonce <= farm.lastRewardBlockNonce
      ensures CurrentWeek() == old(CurrentWeek()) && weeks.log == old(weeks.log)
      ensures r.Success? ==> Users() == Replaced(old(Users()), user, NextProgress(CurrentWeek(), energy))
      ensures r.Success? ==> weeks.splitting.lastGlobalUpdateWeek == CurrentWeek()
      ensures weeks.log == [] ==> PastWeeksKept()
      ensures r.Failure? ==> Untouched()
    {
      hide FarmBoostedYields.Valid, FarmBoostedYields.BoostedOwed, BoostedFarm.CanClaim, BoostedFarm.BoostedReward,
           AmountsOk, BooksOk, PositionsOk, NewRewards, IsFloor, Exchanged, MergedAll, Lost;
      due := Accrual(0, 0, 0, 0);
      var accumulated := farm.accumulatedRewards;
      ghost var positions, owners := farm.userTotalFarmPosition, farm.owners;
      var boosted := ClaimBoosted(user, energy);
      if boosted.Failure? {
        return Failure, 0, due;
      }
      reward := boosted.value;
      var token: FarmPayment;
      token, due := farm.StakeFarm(user, amount, additional, reward);
      Moved(positions, owners, OwnersOf(additional), token.amount, user);
      Close(accumulated, due);
      SameReplaced(old(Users()), Users(), user, NextProgress(CurrentWeek(), energy));
      WriteProgress(user, energy);
      r := Success(token);
    }

    method ClaimRewards(user: Address, p: FarmPayment, optNewFarmingAmount: Option<nat>, energy: EnergyEntry)
      returns (r: Result<FarmPayment>, reward: nat, ghost due: Accrual)
      requires Valid() && Payable([p]) && p.Stakes() <= farm.stakes && p.Owners() <= farm.owners
      modifies farm, weeks, weeks.splitting
      ensures Valid() && old(SeenBefore(user)) && (r.Success? <==> old(CanClaim(user)))
      ensures r.Success? ==>
                && IsAccrual(due, old(farm.RewardDue()), old(farm.farmTokenSupply), farm.divisionSafetyConstant,
                             old(farm.boostedYieldsRewardsPercentage))
                && reward == BaseReward(p, farm.rewardPerShare, farm.divisionSafetyConstant)
                      + old(BoostedReward(user))
                && IsBaseReward(reward - old(BoostedReward(user)), p, farm.rewardPerShare, farm.divisionSafetyConstant)
                && farm.Stored() == Paid(Accrued(old(farm.Stored()), due), reward - old(BoostedReward(user)),
                                         old(BoostedReward(user)))
                                      .(farmTokenSupply := old(farm.farmTokenSupply) - p.amount + r.value.amount)
                && farm.owners == Exchanged(old(farm.owners), p.Owners(), r.value.amount, user)
                && farm.stakes == Exchanged(old(farm.stakes), p.Stakes(), r.value.amount, farm.rewardPerShare)
                && r.value.attributes == Claimed(p, farm.rewardPerShare, r.value.amount, user)
                && r.value.amount == if optNewFarmingAmount.Some? then optNewFarmingAmount.value else p.amount
      ensures r.Success? ==>
                weeks.farmSupplyForWeek == old(weeks.farmSupplyForWeek)[CurrentWeek() := farm.farmTokenSupply]
      ensures r.Success? ==> farm.blockNonce <= farm.lastRewardBlockNonce
      ensures CurrentWeek() == old(CurrentWeek()) && weeks.log == old(weeks.log)
      ensures r.Success? ==> Users() == Replaced(old(Users()), user, NextProgress(CurrentWeek(), energy))
      ensures r.Success? ==> weeks.splitting.lastGlobalUpdateWeek == CurrentWeek()
      ensures r.Failure? ==> Untouched()
    {
      hide FarmBoostedYields.Valid, FarmBoostedYields.BoostedOwed, BoostedFarm.CanClaim, BoostedFarm.BoostedReward,
           AmountsOk, BooksOk, PositionsOk, NewRewards, IsFloor, Exchanged, MergedAll, Lost, BaseReward, IsBaseReward;
      due := Accrual(0, 0, 0, 0);
      var accumulated := farm.accumulatedRewards;
      ghost var positions, owners := farm.userTotalFarmPosition, farm.owners;
      var boosted := ClaimBoosted(user, energy);
      if boosted.Failure? {
        return Failure, 0, due;
      }
      var token: FarmPayment;
      token, reward, due := farm.ClaimRewardsCommon(user, p, boosted.value, optNewFarmingAmount);
      Moved(positions, owners, p.Owners(), token.amount, user);
      Close(accumulated, due);
      SameReplaced(old(Users()), Users(), user, NextProgress(CurrentWeek(), energy));
      WriteProgress(user, energy);
      r := Success(token);
    }

    method CompoundRewards(user: Address, payments: seq<FarmPayment>, energy: EnergyEntry)
      returns (r: Result<FarmPayment>, reward: nat, ghost due: Accrual)
      requires Valid() && payments != []
      requires Payable(payments) && StakesOf(payments) <= farm.stakes && OwnersOf(payments) <= farm.owners
      modifies farm, weeks, weeks.splitting
      ensures Valid() && old(SeenBefore(user)) && (r.Success? <==> old(CanClaim(user)))
      ensures r.Success? ==>
                && IsAccrual(due, old(farm.RewardDue()), old(farm.farmTokenSupply), farm.divisionSafetyConstant,
                             old(farm.boostedYieldsRewardsPercentage))
                && reward
                   == BaseReward(payments[0], farm.rewardPerShare, farm.divisionSafetyConstant)
                      + old(BoostedReward(user))
                && IsBaseReward(reward - old(BoostedReward(user)), payments[0], farm.rewardPerShare,
                                farm.divisionSafetyConstant)
                && farm.Stored() == Paid(Accrued(old(farm.Stored()), due), reward - old(BoostedReward(user)),
                                         old(BoostedReward(user)))
                                      .(farmTokenSupply := old(farm.farmTokenSupply) + reward)
                && farm.owners == Exchanged(old(farm.owners), OwnersOf(payments), r.value.amount, user)
                && farm.stakes == Exchanged(old(farm.stakes), StakesOf(payments), r.value.amount,
                                            r.value.attributes.rewardPerShare)
                && r.value.amount == r.value.attributes.currentFarmAmount == |StakesOf(payments)| + reward
                && r.value.attributes == CompoundedInto(payments, farm.rewardPerShare, reward, user)
      ensures r.Success? ==>
                weeks.farmSupplyForWeek == old(weeks.farmSupplyForWeek)[CurrentWeek() := farm.farmTokenSupply]
      ensures r.Success? ==> farm.blockNonce <= farm.lastRewardBlockNonce
      ensures CurrentWeek() == old(CurrentWeek()) && weeks.log == old(weeks.log)
      ensures r.Failure? ==> Untouched()
    {
      hide FarmBoostedYields.Valid, FarmBoostedYields.BoostedOwed, BoostedFarm.CanClaim, BoostedFarm.BoostedReward,
           AmountsOk, BooksOk, PositionsOk, NewRewards, IsFloor, Exchanged, MergedAll, Lost, BaseReward, IsBaseReward,
           CompoundedInto, StakesOf, OwnersOf;
      due := Accrual(0, 0, 0, 0);
      var accumulated := farm.accumulatedRewards;
      ghost var positions, owners := farm.userTotalFarmPosition, farm.owners;
      var boosted := ClaimBoosted(user, energy);
      if boosted.Failure? {
        return Failure, 0, due;
      }
      var token: FarmPayment;
      token, reward, due := farm.CompoundRewards(user, payments, boosted.value);
      Moved(positions, owners, OwnersOf(payments), token.amount, user);
      Close(accumulated, due);
      r := Success(token);
    }

    /** The token that can be exchanged for the stake once its epoch has come. */
    method UnstakeFarm(user: Address, p: FarmPayment, optUnbondAmount: Option<nat>, energy: EnergyEntry,
                       currentEpoch: Epoch, minUnbondEpochs: nat)
      returns (r: Result<(nat, Epoch)>, reward: nat, ghost due: Accrual)
      requires Valid() && Payable([p]) && p.Stakes() <= farm.stakes && p.Owners() <= farm.owners
      modifies farm, weeks, weeks.splitting
      ensures Valid() && old(SeenBefore(user)) && (r.Success? <==> old(CanClaim(user)))
      ensures r.Success? ==>
                && IsAccrual(due, old(farm.RewardDue()), old(farm.farmTokenSupply), farm.divisionSafetyConstant,
                             old(farm.boostedYieldsRewardsPercentage))
                && r.value == (if optUnbondAmount.Some? then optUnbondAmount.value else p.amount,
                               currentEpoch + minUnbondEpochs)
                && reward == BaseReward(p, farm.rewardPerShare, farm.divisionSafetyConstant)
                      + old(BoostedReward(user))
                && IsBaseReward(reward - old(BoostedReward(user)), p, farm.rewardPerShare, farm.divisionSafetyConstant)
                && farm.Stored() == Paid(Accrued(old(farm.Stored()), due), reward - old(BoostedReward(user)),
                                         old(BoostedReward(user)))
                                      .(farmTokenSupply := old(farm.farmTokenSupply) - p.amount)
                && farm.stakes == Without(old(farm.stakes), p.Stakes())
                && farm.owners == Without(old(farm.owners), p.Owners())
      ensures r.Success? ==>
                weeks.farmSupplyForWeek == old(weeks.farmSupplyForWeek)[CurrentWeek() := farm.farmTokenSupply]
      ensures r.Success? ==> CountsOnlyIfLargeEnough(user)
      ensures r.Success? ==> farm.blockNonce <= farm.lastRewardBlockNonce
      ensures CurrentWeek() == old(CurrentWeek()) && weeks.log == old(weeks.log)
      ensures r.Failure? ==> Untouched()
    {
      hide FarmBoostedYields.Valid, FarmBoostedYields.BoostedOwed, BoostedFarm.CanClaim, BoostedFarm.BoostedReward,
           AmountsOk, BooksOk, PositionsOk, NewRewards, IsFloor, Exchanged, MergedAll, Lost, BaseReward, IsBaseReward,
           BoostedFarm.CountsOnlyIfLargeEnough, Without;
      due := Accrual(0, 0, 0, 0);
      var accumulated := farm.accumulatedRewards;
      ghost var positions, owners := farm.userTotalFarmPosition, farm.owners;
      var boosted := ClaimBoosted(user, energy);
      if boosted.Failure? {
        return Failure, 0, due;
      }
      var unbondAmount: nat;
      unbondAmount, reward, due := farm.UnstakeFarm(p, boosted.value, optUnbondAmount);
      Moved(positions, owners, p.Owners(), 0, user);
      CloseAndClear(user, accumulated, due, currentEpoch);
      r := Success((unbondAmount, currentEpoch + minUnbondEpochs));
    }

    method MergeFarmTokens(user: Address, payments: seq<FarmPayment>,
                           energy: EnergyEntry) returns (r: Result<FarmPayment>)
      requires Valid() && payments != []
      requires Payable(payments) && StakesOf(payments) <= farm.stakes && OwnersOf(payments) <= farm.owners
      modifies farm, weeks, weeks.splitting
      ensures Valid() && old(SeenBefore(user)) && (r.Success? <==> old(CanClaim(user)))
      ensures r.Success? ==>
                && farm.Stored() == Paid(old(farm.Stored()), 0, old(BoostedReward(user)))
                && farm.owners == Exchanged(old(farm.owners), OwnersOf(payments), r.value.amount, user)
                && farm.stakes == Exchanged(old(farm.stakes), StakesOf(payments), r.value.amount,
                                            r.value.attributes.rewardPerShare)
                && r.value.amount == r.value.attributes.currentFarmAmount == |StakesOf(payments)|
                && r.value.attributes == MergedInto(payments, user)
      ensures CurrentWeek() == old(CurrentWeek()) && weeks.log == old(weeks.log)
      ensures weeks.log == [] ==>
                PastWeeksKept() && Users() == old(Users()) && weeks.farmSupplyForWeek == old(weeks.farmSupplyForWeek)
      ensures r.Failure? ==> Untouched()
    {
      hide FarmBoostedYields.Valid, FarmBoostedYields.BoostedOwed, BoostedFarm.CanClaim, BoostedFarm.BoostedReward,
           AmountsOk, BooksOk, PositionsOk, NewRewards, IsFloor, Exchanged, Lost, MergedInto, StakesOf, OwnersOf;
      ghost var positions, owners := farm.userTotalFarmPosition, farm.owners;
      var boosted := ClaimBoosted(user, energy);
      if boosted.Failure? {
        return Failure;
      }
      var token := farm.MergeFarmTokens(user, payments, boosted.value);
      Moved(positions, owners, OwnersOf(payments), token.amount, user);
      r := Success(token);
    }

    /** Only the boosted rewards are paid, for a user with a position; the reserve goes on counting them. */
    method ClaimBoostedRewards(user: Address, energy: EnergyEntry) returns (r: Result<nat>, ghost due: Accrual)
      requires Valid()
      modifies farm, weeks, weeks.splitting
      ensures Valid() && old(SeenBefore(user))
      ensures r.Success? <==> old(PositionOf(user)) > 0 && old(CanClaim(user))
      ensures r.Success? ==>
                && IsAccrual(due, old(farm.RewardDue()), old(farm.farmTokenSupply), farm.divisionSafetyConstant,
                             old(farm.boostedYieldsRewardsPercentage))
                && r.value == old(BoostedReward(user))
                && farm.Stored() == Overwritten(old(farm.Stored()), due, r.value)
                && farm.boostedClaims == old(farm.boostedClaims) + [r.value]
      ensures r.Success? ==>
                weeks.farmSupplyForWeek == old(weeks.farmSupplyForWeek)[CurrentWeek() := farm.farmTokenSupply]
      ensures r.Success? ==> farm.blockNonce <= farm.lastRewardBlockNonce
      ensures CurrentWeek() == old(CurrentWeek()) && weeks.log == old(weeks.log)
      ensures r.Failure? ==> Untouched()
    {
      hide FarmBoostedYields.Valid, FarmBoostedYields.BoostedOwed, BoostedFarm.CanClaim, BoostedFarm.BoostedReward,
           AmountsOk, BooksOk, PositionsOk, NewRewards, IsFloor, Exchanged, MergedAll, Lost;
      AllSeenBefore(user);
      due := Accrual(0, 0, 0, 0);
      if user !in farm.userTotalFarmPosition || farm.userTotalFarmPosition[user] == 0 {
        return Failure, due;
      }
      var accumulated := farm.accumulatedRewards;
      r := ClaimBoosted(user, energy);
      if r.Failure? {
        return;
      }
      due := farm.ClaimBoostedRewards(r.value);
      Close(accumulated, due);
    }

    method UpdateEnergyForUser(user: Address, energy: EnergyEntry) returns (ok: bool)
      requires Valid()
      modifies weeks.splitting
      ensures Valid() && CurrentWeek() == old(CurrentWeek())
      ensures ok <==> (user in old(Users()) ==> old(Users())[user].week == CurrentWeek())
      ensures Users() == if ok then Replaced(old(Users()), user, NextProgress(CurrentWeek(), energy)) else old(Users())
    {
      hide FarmBoostedYields.Valid, FarmBoostedYields.BoostedOwed, BoostedFarm.CanClaim, BoostedFarm.BoostedReward,
           AmountsOk, BooksOk, PositionsOk, NewRewards, IsFloor, Exchanged, MergedAll, Lost;
      if user in weeks.splitting.currentClaimProgress
         && weeks.splitting.currentClaimProgress[user].week != weeks.splitting.currentWeek {
        return false;
      }
      WriteProgress(user, energy);
      return true;
    }

    // ---- Time and settings ----

    method AdvanceBlock(nonce: nat)
      requires Valid() && farm.blockNonce <= nonce
      modifies farm`blockNonce
      ensures Valid() && farm.blockNonce == nonce && farm.Stored() == old(farm.Stored())
    {
      hide FarmBoostedYields.Valid, FarmBoostedYields.BoostedOwed, BoostedFarm.CanClaim, BoostedFarm.BoostedReward,
           AmountsOk, BooksOk, PositionsOk, NewRewards, IsFloor, Exchanged, MergedAll, Lost;
      farm.AdvanceBlock(nonce);
    }

    /** The week that ends leaves its supply to those who can claim it. */
    method AdvanceWeek(week: Week)
      requires Valid() && CurrentWeek() <= week
      modifies weeks.splitting`currentWeek
      ensures Valid() && CurrentWeek() == week && Users() == old(Users())
      ensures forall w: Week :: weeks.StateOf(w) == old(weeks.StateOf(w))
    {
      hide FarmBoostedYields.CountersOk, FarmBoostedYields.StateOf, FarmBoostedYields.BoostedOwed, AmountsOk,
           WeekBooksOk, SpentOk, SpentCovers, BooksOk, PositionsOk;
      WeekEndsWithin(weeks.farmSupplyForWeek, weeks.farmSpent, farm.userTotalFarmPosition, farm.owners, Users(),
                     CurrentWeek(), From(), early, week, if weeks.log == [] then week else From());
      weeks.AdvanceWeek(week);
    }

    /** With the first configuration, the earlier weeks that are within their supply join those that always are. */
    method SetBoostedYieldsFactors(factors: BoostedYieldsFactors) returns (ok: bool)
      requires Valid()
      modifies weeks`boostedYieldsConfig, weeks`log, this`early
      ensures Valid() && (ok <==> factors.minEnergyAmount > 0 && factors.minFarmAmount > 0)
      ensures weeks.log == if ok then old(weeks.log) + [Change(CurrentWeek(), factors)] else old(weeks.log)
      ensures ok ==> From() == old(From())
      ensures forall w: Week :: weeks.StateOf(w) == old(weeks.StateOf(w))
      ensures early == if ok && old(weeks.log) == []
                       then WithinSupply(weeks.farmSupplyForWeek, farm.userTotalFarmPosition, Users(), CurrentWeek())
                       else old(early)
    {
      hide FarmBoostedYields.CountersOk, FarmBoostedYields.StateOf, FarmBoostedYields.BoostedOwed, AmountsOk,
           WeekBooksOk, SpentOk, SpentCovers, BooksOk, PositionsOk, HeldFor, WithinSupply;
      ghost var first := weeks.log == [];
      ok := weeks.SetBoostedYieldsFactors(factors);
      if ok && first {
        FirstConfigured(weeks.farmSupplyForWeek, weeks.farmSpent, farm.userTotalFarmPosition, Users(), CurrentWeek(),
                        CurrentWeek(), early);
        early := WithinSupply(weeks.farmSupplyForWeek, farm.userTotalFarmPosition, Users(), CurrentWeek());
      }
    }

    method CollectUndistributedBoostedRewards() returns (ok: bool)
      requires Valid()
      modifies weeks`remainingBoostedRewardsToDistribute, weeks`undistributedBoostedRewards,
               weeks`lastUndistributedBoostedRewardsCollectWeek, weeks`swept
      ensures Valid() && (ok <==> CurrentWeek() > COLLECT_REWARDS_OFFSET)
      ensures ok ==> weeks.undistributedBoostedRewards == old(weeks.undistributedBoostedRewards)
                       + SumRange(old(weeks.remainingBoostedRewardsToDistribute),
                                  old(weeks.lastUndistributedBoostedRewardsCollectWeek) + 1,
                                  CurrentWeek() - COLLECT_REWARDS_OFFSET)
      ensures forall w: Week :: w <= weeks.lastUndistributedBoostedRewardsCollectWeek ==>
                weeks.StateOf(w).remaining == 0
      ensures !ok ==> unchanged(weeks)
    {
      hide FarmBoostedYields.CountersOk, FarmBoostedYields.StateOf, FarmBoostedYields.BoostedOwed, AmountsOk,
           WeekBooksOk, SpentOk, SpentCovers, BooksOk, PositionsOk, SumRange;
      ok := weeks.CollectUndistributedBoostedRewards();
    }

    method TopUpRewards(amount: nat)
      requires Valid()
      modifies farm`rewardCapacity
      ensures Valid() && farm.rewardCapacity == old(farm.rewardCapacity) + amount
    {
      hide FarmBoostedYields.Valid, FarmBoostedYields.BoostedOwed, BoostedFarm.CanClaim, BoostedFarm.BoostedReward,
           AmountsOk, BooksOk, PositionsOk, NewRewards, IsFloor, Exchanged, MergedAll, Lost;
      farm.TopUpRewards(amount);
    }

    method StartProduceRewards() returns (ok: bool)
      requires Valid()
      modifies farm`produceRewardsEnabled, farm`lastRewardBlockNonce
      ensures Valid() && farm.Stored() == old(farm.Stored())
      ensures ok <==> farm.perBlockRewardAmount != 0 && !old(farm.produceRewardsEnabled)
      ensures ok ==> farm.produceRewardsEnabled && farm.lastRewardBlockNonce == farm.blockNonce
    {
      hide FarmBoostedYields.Valid, FarmBoostedYields.BoostedOwed, BoostedFarm.CanClaim, BoostedFarm.BoostedReward,
           AmountsOk, BooksOk, PositionsOk, NewRewards, IsFloor, Exchanged, MergedAll, Lost;
      ok := farm.StartProduceRewards();
    }

    method SetPerBlockRewards(perBlockAmount: nat) returns (ok: bool, ghost due: Accrual)
      requires Valid()
      modifies farm`farmTokenSupply, farm`rewardReserve, farm`rewardPerShare, farm`accumulatedRewards,
               farm`lastRewardBlockNonce, farm`boostedOwed, farm`stakes, farm`perBlockRewardAmount,
               weeks`accumulatedRewardsForWeek, weeks`taken
      ensures Valid() && (ok <==> perBlockAmount != 0)
      ensures ok ==> farm.perBlockRewardAmount == perBlockAmount && farm.Stored() == Accrued(old(farm.Stored()), due)
      ensures ok ==> IsAccrual(due, old(farm.RewardDue()), old(farm.farmTokenSupply), farm.divisionSafetyConstant,
                               old(farm.boostedYieldsRewardsPercentage))
      ensures ok ==> farm.blockNonce <= farm.lastRewardBlockNonce
    {
      hide FarmBoostedYields.Valid, FarmBoostedYields.BoostedOwed, BoostedFarm.CanClaim, BoostedFarm.BoostedReward,
           AmountsOk, BooksOk, PositionsOk, NewRewards, IsFloor, Exchanged, MergedAll, Lost;
      var accumulated := farm.accumulatedRewards;
      ok, due := farm.SetPerBlockRewards(perBlockAmount);
      if ok {
        SetAside(accumulated, due);
      }
    }

    method SetMaxApr(maxApr: nat) returns (ok: bool, ghost due: Accrual)
      requires Valid()
      modifies farm`farmTokenSupply, farm`rewardReserve, farm`rewardPerShare, farm`accumulatedRewards,
               farm`lastRewardBlockNonce, farm`boostedOwed, farm`stakes, farm`maxAnnualPercentageRewards,
               weeks`accumulatedRewardsForWeek, weeks`taken
      ensures Valid() && (ok <==> maxApr != 0)
      ensures ok ==> farm.maxAnnualPercentageRewards == maxApr && farm.Stored() == Accrued(old(farm.Stored()), due)
      ensures ok ==> IsAccrual(due, old(farm.RewardDue()), old(farm.farmTokenSupply), farm.divisionSafetyConstant,
                               old(farm.boostedYieldsRewardsPercentage))
      ensures ok ==> farm.blockNonce <= farm.lastRewardBlockNonce
    {
      hide FarmBoostedYields.Valid, FarmBoostedYields.BoostedOwed, BoostedFarm.CanClaim, BoostedFarm.BoostedReward,
           AmountsOk, BooksOk, PositionsOk, NewRewards, IsFloor, Exchanged, MergedAll, Lost;
      var accumulated := farm.accumulatedRewards;
      ok, due := farm.SetMaxApr(maxApr);
      if ok {
        SetAside(accumulated, due);
      }
    }

    method WithdrawRewards(withdrawAmount: nat) returns (ok: bool, ghost due: Accrual)
      requires Valid()
      modifies farm`farmTokenSupply, farm`rewardReserve, farm`rewardPerShare, farm`accumulatedRewards,
               farm`lastRewardBlockNonce, farm`boostedOwed, farm`stakes, farm`rewardCapacity,
               weeks`accumulatedRewardsForWeek, weeks`taken
      ensures Valid()
      ensures (ok <==> withdrawAmount <= old(farm.rewardCapacity - farm.accumulatedRewards - farm.RewardDue()))
      ensures ok ==>
                farm.rewardCapacity == old(farm.rewardCapacity) - withdrawAmount
                && farm.Stored() == Accrued(old(farm.Stored()), due)
      ensures ok ==> IsAccrual(due, old(farm.RewardDue()), old(farm.farmTokenSupply), farm.divisionSafetyConstant,
                               old(farm.boostedYieldsRewardsPercentage))
    {
      hide FarmBoostedYields.Valid, FarmBoostedYields.BoostedOwed, BoostedFarm.CanClaim, BoostedFarm.BoostedReward,
           AmountsOk, BooksOk, PositionsOk, NewRewards, IsFloor, Exchanged, MergedAll, Lost;
      var accumulated := farm.accumulatedRewards;
      ok, due := farm.WithdrawRewards(withdrawAmount);
      if ok {
        SetAside(accumulated, due);
      }
    }

    method EndProduceRewards() returns (ghost due: Accrual)
      requires Valid()
      modifies farm`farmTokenSupply, farm`rewardReserve, farm`rewardPerShare, farm`accumulatedRewards,
               farm`lastRewardBlockNonce, farm`boostedOwed, farm`stakes, farm`produceRewardsEnabled,
               weeks`accumulatedRewardsForWeek, weeks`taken
      ensures Valid() && !farm.produceRewardsEnabled && farm.Stored() == Accrued(old(farm.Stored()), due)
      ensures IsAccrual(due, old(farm.RewardDue()), old(farm.farmTokenSupply), farm.divisionSafetyConstant,
                        old(farm.boostedYieldsRewardsPercentage))
      ensures farm.blockNonce <= farm.lastRewardBlockNonce
    {
      hide FarmBoostedYields.Valid, FarmBoostedYields.BoostedOwed, BoostedFarm.CanClaim, BoostedFarm.BoostedReward,
           AmountsOk, BooksOk, PositionsOk, NewRewards, IsFloor, Exchanged, MergedAll, Lost;
      var accumulated := farm.accumulatedRewards;
      due := farm.EndProduceRewards();
      SetAside(accumulated, due);
    }

    method SetBoostedYieldsRewardsPercentage(percentage: nat) returns (ok: bool, ghost due: Accrual)
      requires Valid()
      modifies farm`farmTokenSupply, farm`rewardReserve, farm`rewardPerShare, farm`accumulatedRewards,
               farm`lastRewardBlockNonce, farm`boostedOwed, farm`stakes, farm`boostedYieldsRewardsPercentage,
               weeks`accumulatedRewardsForWeek, weeks`taken, weeks`boostedYieldsRewardsPercentage
      ensures Valid() && (ok <==> percentage <= MAX_PERCENT)
      ensures ok ==>
                farm.boostedYieldsRewardsPercentage == percentage && farm.Stored() == Accrued(old(farm.Stored()), due)
      ensures ok ==> IsAccrual(due, old(farm.RewardDue()), old(farm.farmTokenSupply), farm.divisionSafetyConstant,
                               old(farm.boostedYieldsRewardsPercentage))
      ensures ok ==> farm.blockNonce <= farm.lastRewardBlockNonce
    {
      hide FarmBoostedYields.Valid, FarmBoostedYields.BoostedOwed, BoostedFarm.CanClaim, BoostedFarm.BoostedReward,
           AmountsOk, BooksOk, PositionsOk, NewRewards, IsFloor, Exchanged, MergedAll, Lost;
      var accumulated := farm.accumulatedRewards;
      ok, due := farm.SetBoostedYieldsRewardsPercentage(percentage);
      if ok {
        SetAside(accumulated, due);
        var written := weeks.SetBoostedYieldsRewardsPercentage(percentage);
      }
    }
  }
}
