/** What users take out of a week's boosted rewards. */
module BoostedPayouts {
  import opened Chain
  import opened Wrappers
  import opened Arith
  import opened BoostedFactors

  /** A user's energy and farm tokens, as they count for one week. */
  datatype Claim = Claim(energy: nat, farmAmount: nat)

  datatype WeekTotals = WeekTotals(reward: nat, energy: nat, farmSupply: nat)

  function ByPart(reward: nat, factor: nat, part: nat, whole: nat): nat
    requires whole > 0
  {
    MulNat(reward, factor);
    MulNat(reward * factor, part);
    FloorNat(reward * factor * part, whole);
    reward * factor * part / whole
  }

  function UserReward(t: WeekTotals, f: BoostedYieldsFactors, c: Claim): nat
    requires t.energy > 0 && t.farmSupply > 0 && f.userRewardsEnergyConst + f.userRewardsFarmConst > 0
  {
    var maxRewards := ByPart(f.maxRewardsFactor, t.reward, c.farmAmount, t.farmSupply);
    var byEnergy := ByPart(t.reward, f.userRewardsEnergyConst, c.energy, t.energy);
    var byTokens := ByPart(t.reward, f.userRewardsFarmConst, c.farmAmount, t.farmSupply);
    var constantsBase := f.userRewardsEnergyConst + f.userRewardsFarmConst;
    FloorNat(byEnergy + byTokens, constantsBase);
    var computed := (byEnergy + byTokens) / constantsBase;
    if maxRewards <= computed then maxRewards else computed
  }

  /** The smaller of what the farm amount is capped at and of both parts weighed by the constants, every division
      rounding down. */
  ghost predicate IsRewardOf(r: nat, cap: nat, byEnergy: nat, byTokens: nat, weighted: nat, t: WeekTotals,
                             f: BoostedYieldsFactors, c: Claim) {
    && IsFloor(cap, f.maxRewardsFactor * t.reward * c.farmAmount, t.farmSupply)
    && IsFloor(byEnergy, t.reward * f.userRewardsEnergyConst * c.energy, t.energy)
    && IsFloor(byTokens, t.reward * f.userRewardsFarmConst * c.farmAmount, t.farmSupply)
    && IsFloor(weighted, byEnergy + byTokens, f.userRewardsEnergyConst + f.userRewardsFarmConst)
    && r <= cap && r <= weighted && (r == cap || r == weighted)
  }

  /** What the week pays for a claim. */
  ghost predicate IsUserReward(r: nat, t: WeekTotals, f: BoostedYieldsFactors, c: Claim) {
    exists cap: nat, byEnergy: nat, byTokens: nat, weighted: nat ::
      IsRewardOf(r, cap, byEnergy, byTokens, weighted, t, f, c)
  }

  lemma ByPartIs(reward: nat, factor: nat, part: nat, whole: nat)
    requires whole > 0
    ensures IsFloor(ByPart(reward, factor, part, whole), reward * factor * part, whole)
  {
    FloorOf(reward * factor * part, whole);
  }

  lemma WeightedIs(parts: nat, base: nat)
    requires base > 0
    ensures 0 <= parts / base && IsFloor(parts / base, parts, base)
  {
    FloorOf(parts, base);
    FloorNat(parts, base);
  }

  lemma UserRewardIs(t: WeekTotals, f: BoostedYieldsFactors, c: Claim)
    requires CanPay(t, f)
    ensures IsUserReward(UserReward(t, f, c), t, f, c)
  {
    hide ByPart, IsFloor;
    var cap := ByPart(f.maxRewardsFactor, t.reward, c.farmAmount, t.farmSupply);
    var byEnergy := ByPart(t.reward, f.userRewardsEnergyConst, c.energy, t.energy);
    var byTokens := ByPart(t.reward, f.userRewardsFarmConst, c.farmAmount, t.farmSupply);
    ByPartIs(f.maxRewardsFactor, t.reward, c.farmAmount, t.farmSupply);
    ByPartIs(t.reward, f.userRewardsEnergyConst, c.energy, t.energy);
    ByPartIs(t.reward, f.userRewardsFarmConst, c.farmAmount, t.farmSupply);
    WeightedIs(byEnergy + byTokens, f.userRewardsEnergyConst + f.userRewardsFarmConst);
    var weighted: nat := (byEnergy + byTokens) / (f.userRewardsEnergyConst + f.userRewardsFarmConst);
    assert IsRewardOf(UserReward(t, f, c), cap, byEnergy, byTokens, weighted, t, f, c);
  }

  lemma SameFloor(q: int, q': int, n: int, d: int)
    requires d > 0 && IsFloor(q, n, d) && IsFloor(q', n, d)
    ensures q == q'
  {
    FloorExact(q, n, d);
    FloorExact(q', n, d);
  }

  /** There is only one such reward. */
  lemma UserRewardDetermined(r: nat, r': nat, t: WeekTotals, f: BoostedYieldsFactors, c: Claim)
    requires CanPay(t, f) && IsUserReward(r, t, f, c) && IsUserReward(r', t, f, c)
    ensures r == r'
  {
    hide IsFloor;
    var cap: nat, e: nat, k: nat, w: nat :| IsRewardOf(r, cap, e, k, w, t, f, c);
    var cap': nat, e': nat, k': nat, w': nat :| IsRewardOf(r', cap', e', k', w', t, f, c);
    SameFloor(cap, cap', f.maxRewardsFactor * t.reward * c.farmAmount, t.farmSupply);
    SameFloor(e, e', t.reward * f.userRewardsEnergyConst * c.energy, t.energy);
    SameFloor(k, k', t.reward * f.userRewardsFarmConst * c.farmAmount, t.farmSupply);
    SameFloor(w, w', e + k, f.userRewardsEnergyConst + f.userRewardsFarmConst);
  }

  ghost predicate CanPay(t: WeekTotals, f: BoostedYieldsFactors) {
    t.energy > 0 && t.farmSupply > 0 && f.userRewardsEnergyConst + f.userRewardsFarmConst > 0
  }

  ghost function EnergySum(claims: seq<Claim>): nat {
    if claims == [] then 0 else EnergySum(claims[..|claims| - 1]) + claims[|claims| - 1].energy
  }

  ghost function FarmSum(claims: seq<Claim>): nat {
    if claims == [] then 0 else FarmSum(claims[..|claims| - 1]) + claims[|claims| - 1].farmAmount
  }

  ghost function PaidOut(t: WeekTotals, f: BoostedYieldsFactors, claims: seq<Claim>): nat
    requires claims == [] || CanPay(t, f)
  {
    if claims == [] then 0 else PaidOut(t, f, claims[..|claims| - 1]) + UserReward(t, f, claims[|claims| - 1])
  }

  /** The two halves of what is paid, before they are weighed against each other. */
  ghost function ByEnergySum(t: WeekTotals, f: BoostedYieldsFactors, claims: seq<Claim>): nat
    requires CanPay(t, f)
  {
    if claims == [] then 0
    else ByEnergySum(t, f, claims[..|claims| - 1])
         + ByPart(t.reward, f.userRewardsEnergyConst, claims[|claims| - 1].energy, t.energy)
  }

  ghost function ByTokensSum(t: WeekTotals, f: BoostedYieldsFactors, claims: seq<Claim>): nat
    requires CanPay(t, f)
  {
    if claims == [] then 0
    else ByTokensSum(t, f, claims[..|claims| - 1])
         + ByPart(t.reward, f.userRewardsFarmConst, claims[|claims| - 1].farmAmount, t.farmSupply)
  }

  lemma PartAdds(sum: int, reward: nat, factor: nat, parts: nat, part: nat, whole: nat)
    requires whole > 0 && sum * whole <= reward * factor * parts
    ensures (sum + ByPart(reward, factor, part, whole)) * whole <= reward * factor * (parts + part)
  {
    var r: int := ByPart(reward, factor, part, whole);
    var k := reward * factor;
    FloorOf(k * part, whole);
    assert (sum + r) * whole == sum * whole + r * whole;
    assert k * (parts + part) == k * parts + k * part;
  }

  lemma RewardWithinParts(t: WeekTotals, f: BoostedYieldsFactors, c: Claim)
    requires CanPay(t, f)
    ensures UserReward(t, f, c) * (f.userRewardsEnergyConst + f.userRewardsFarmConst)
         <= ByPart(t.reward, f.userRewardsEnergyConst, c.energy, t.energy)
            + ByPart(t.reward, f.userRewardsFarmConst, c.farmAmount, t.farmSupply)
  {
    hide ByPart;
    var parts := ByPart(t.reward, f.userRewardsEnergyConst, c.energy, t.energy)
               + ByPart(t.reward, f.userRewardsFarmConst, c.farmAmount, t.farmSupply);
    var base := f.userRewardsEnergyConst + f.userRewardsFarmConst;
    FloorOf(parts, base);
    MulLe(UserReward(t, f, c), parts / base, base);
  }

  lemma {:induction false} PaidWithinParts(t: WeekTotals, f: BoostedYieldsFactors, claims: seq<Claim>)
    requires CanPay(t, f)
    ensures PaidOut(t, f, claims) * (f.userRewardsEnergyConst + f.userRewardsFarmConst)
         <= ByEnergySum(t, f, claims) + ByTokensSum(t, f, claims)
    ensures ByEnergySum(t, f, claims) * t.energy <= t.reward * f.userRewardsEnergyConst * EnergySum(claims)
    ensures ByTokensSum(t, f, claims) * t.farmSupply <= t.reward * f.userRewardsFarmConst * FarmSum(claims)
  {
    hide ByPart, UserReward;
    if claims == [] {
      NothingClaimed(t, f);
    } else {
      var init, c := claims[..|claims| - 1], claims[|claims| - 1];
      PaidWithinParts(t, f, init);
      RewardWithinParts(t, f, c);
      PartAdds(ByEnergySum(t, f, init), t.reward, f.userRewardsEnergyConst, EnergySum(init), c.energy, t.energy);
      PartAdds(ByTokensSum(t, f, init), t.reward, f.userRewardsFarmConst, FarmSum(init), c.farmAmount, t.farmSupply);
      MulDistributes(PaidOut(t, f, init), UserReward(t, f, c), f.userRewardsEnergyConst + f.userRewardsFarmConst);
    }
  }

  lemma NothingClaimed(t: WeekTotals, f: BoostedYieldsFactors)
    requires CanPay(t, f)
    ensures PaidOut(t, f, []) * (f.userRewardsEnergyConst + f.userRewardsFarmConst) == 0
    ensures ByEnergySum(t, f, []) * t.energy == 0
    ensures ByTokensSum(t, f, []) * t.farmSupply == 0 == ByTokensSum(t, f, []) == ByEnergySum(t, f, [])
    ensures t.reward * f.userRewardsEnergyConst * EnergySum([]) == 0 == t.reward * f.userRewardsFarmConst * FarmSum([])
  {
  }

  /** However many users claim: as long as their energies and farm tokens add up to no more than the week's totals, they
      are paid no more than was collected for the week. */
  lemma PaidWithinCollected(t: WeekTotals, f: BoostedYieldsFactors, claims: seq<Claim>)
    requires claims == [] || (CanPay(t, f) && EnergySum(claims) <= t.energy && FarmSum(claims) <= t.farmSupply)
    ensures PaidOut(t, f, claims) <= t.reward
  {
    hide ByPart, UserReward, PaidOut, ByEnergySum, ByTokensSum;
    if claims == [] {
      NothingPaid(t, f);
    } else {
      var e, k := f.userRewardsEnergyConst, f.userRewardsFarmConst;
      PaidWithinParts(t, f, claims);
      HalfWithin(ByEnergySum(t, f, claims), t.reward, e, EnergySum(claims), t.energy);
      HalfWithin(ByTokensSum(t, f, claims), t.reward, k, FarmSum(claims), t.farmSupply);
      assert t.reward * (e + k) == t.reward * e + t.reward * k;
      LeOfMul(PaidOut(t, f, claims), t.reward, e + k);
    }
  }

  lemma NothingPaid(t: WeekTotals, f: BoostedYieldsFactors)
    ensures PaidOut(t, f, []) == 0
  {
  }

  lemma HalfWithin(sum: nat, reward: nat, factor: nat, parts: nat, whole: nat)
    requires 0 < whole && parts <= whole && sum * whole <= reward * factor * parts
    ensures sum <= reward * factor
  {
    MulNat(reward, factor);
    MulLe(parts, whole, reward * factor);
    LeOfMul(sum, reward * factor, whole);
  }

  // ---- One week's books ----

  /** A week's counters, the totals it is shared by, and what ever happened to its rewards. */
  datatype WeekState = WeekState(accumulated: nat, total: Option<nat>, remaining: nat, energy: nat, farmSupply: nat,
                                 taken: nat, collected: bool, claims: seq<Claim>, paid: nat, swept: nat)

  /** Every reward set aside for a week is in one place: waiting for the first claim, remaining for the next ones, paid,
      or swept. */
  ghost predicate WeekOk(s: WeekState, week: Week, currentWeek: Week, lastSwept: Week, log: seq<Change>) {
    && s.taken == s.accumulated + s.remaining + s.paid + s.swept
    && (week > currentWeek ==> s.taken == 0)
    && (if s.collected then week < currentWeek && s.accumulated == 0
        else s.total.None? && s.accumulated == s.taken && s.claims == [])
    && (s.total.Some? ==> s.total.value == s.taken && PaidOk(s, week, log))
    && (s.collected && s.total.None? ==> s.energy == 0)
    && (if week <= lastSwept then s.remaining == 0 else s.swept == 0)
  }

  ghost function Totals(s: WeekState): WeekTotals {
    WeekTotals(s.taken, s.energy, s.farmSupply)
  }

  ghost predicate PaidOk(s: WeekState, week: Week, log: seq<Change>) {
    if s.claims == [] then s.paid == 0
    else log != [] && CanPay(Totals(s), InForce(log, week))
         && s.paid == PaidOut(Totals(s), InForce(log, week), s.claims)
  }

  /** Later changes of the factors, and later weeks, leave a collected week's books alone. */
  lemma WeekOutlives(s: WeekState, week: Week, currentWeek: Week, lastSwept: Week, log: seq<Change>, currentWeek': Week,
                     log': seq<Change>)
    requires WeekOk(s, week, currentWeek, lastSwept, log) && currentWeek <= currentWeek'
    requires log == [] || (IsHistory(log) && (log' == log || exists f :: log' == log + [Change(currentWeek, f)]))
    ensures WeekOk(s, week, currentWeek', lastSwept, log')
  {
    hide CanPay, PaidOut;
    if log != [] && log' != log && week < currentWeek {
      var f :| log' == log + [Change(currentWeek, f)];
      PastIsSettled(log, Change(currentWeek, f), week);
    }
  }

  lemma WeekCollected(s: WeekState, week: Week, currentWeek: Week, lastSwept: Week, log: seq<Change>)
    requires WeekOk(s, week, currentWeek, lastSwept, log) && !s.collected && lastSwept < week < currentWeek
    ensures WeekOk(s.(accumulated := 0, total := Some(s.accumulated), remaining := s.accumulated, collected := true),
                   week, currentWeek, lastSwept, log)
  {
  }

  /** What was set aside and not paid for a week that can be claimed. */
  lemma WeekTotal(s: WeekState, week: Week, currentWeek: Week, lastSwept: Week, log: seq<Change>)
    requires WeekOk(s, week, currentWeek, lastSwept, log) && lastSwept < week && s.energy > 0
    ensures s.total.Some? ==>
              s.collected && s.accumulated == 0 && s.total.value == s.taken && s.remaining == s.taken - s.paid
    ensures s.total.None? ==> !s.collected && s.accumulated == s.taken && s.remaining == 0 == s.paid
  {
  }

  /** Clearing a week's totals. */
  lemma WeekCleared(s: WeekState, week: Week, currentWeek: Week, lastSwept: Week, log: seq<Change>)
    requires WeekOk(s, week, currentWeek, lastSwept, log)
    ensures WeekOk(s.(total := None, energy := 0), week, currentWeek, lastSwept, log)
  {
  }

  lemma CurrentWeekTotals(s: WeekState, currentWeek: Week, lastSwept: Week, log: seq<Change>, energy: nat,
                          farmSupply: nat)
    requires WeekOk(s, currentWeek, currentWeek, lastSwept, log)
    ensures WeekOk(s.(energy := energy, farmSupply := farmSupply), currentWeek, currentWeek, lastSwept, log)
  {
  }

  /** Sweeping the weeks up to lastSwept'. */
  lemma WeekSwept(s: WeekState, week: Week, currentWeek: Week, lastSwept: Week, lastSwept': Week, log: seq<Change>)
    requires WeekOk(s, week, currentWeek, lastSwept, log) && lastSwept <= lastSwept'
    ensures WeekOk(if lastSwept < week <= lastSwept' then s.(remaining := 0, swept := s.remaining) else s, week,
                   currentWeek, lastSwept', log)
    ensures lastSwept < week ==> s.swept == 0
  {
  }

  /** One more claim, if what remains covers it. */
  lemma WeekClaimed(s: WeekState, week: Week, currentWeek: Week, lastSwept: Week, log: seq<Change>, c: Claim,
                    reward: nat)
    requires WeekOk(s, week, currentWeek, lastSwept, log) && s.total.Some? && lastSwept < week && reward <= s.remaining
    requires log != [] && CanPay(Totals(s), InForce(log, week))
    requires reward == UserReward(Totals(s), InForce(log, week), c)
    ensures WeekOk(s.(claims := s.claims + [c], remaining := s.remaining - reward, paid := s.paid + reward), week,
                   currentWeek, lastSwept, log)
  {
    hide UserReward, InForce;
    assert (s.claims + [c])[..|s.claims|] == s.claims;
  }

  /** As long as the energies and farm tokens of its claims add up to no more than the week's totals, what was not paid
      yet covers the next claim. */
  lemma ClaimCovered(s: WeekState, week: Week, currentWeek: Week, lastSwept: Week, log: seq<Change>, c: Claim)
    requires WeekOk(s, week, currentWeek, lastSwept, log) && log != [] && CanPay(Totals(s), InForce(log, week))
    requires EnergySum(s.claims) + c.energy <= s.energy && FarmSum(s.claims) + c.farmAmount <= s.farmSupply
    ensures UserReward(Totals(s), InForce(log, week), c) <= s.taken - s.paid
  {
    hide UserReward, InForce;
    assert (s.claims + [c])[..|s.claims|] == s.claims;
    PaidWithinCollected(Totals(s), InForce(log, week), s.claims + [c]);
  }
}
