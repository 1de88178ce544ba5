/** farm-boosted-yields/src/lib.rs, take_reward_slice: the cut of new rewards that is boosted. */
module RewardSlices {
  import opened Arith

  const MAX_PERCENT: nat := 10_000

  function BoostedCut(fullReward: nat, percentage: nat): (r: nat)
    requires percentage <= MAX_PERCENT
    ensures r <= fullReward && IsFloor(r, fullReward * percentage, MAX_PERCENT)
  {
    FloorOf(fullReward * percentage, MAX_PERCENT);
    FloorNat(fullReward * percentage, MAX_PERCENT);
    MulLe(percentage, MAX_PERCENT, fullReward);
    LeOfMul(fullReward * percentage / MAX_PERCENT, fullReward, MAX_PERCENT);
    fullReward * percentage / MAX_PERCENT
  }
}

/** energy-integration/farm-boosted-yields/src/boosted_yields_factors.rs: a window of factors over an unbounded
    history. */
module BoostedFactors {
  import opened Chain
  import opened Wrappers

  const USER_MAX_CLAIM_WEEKS: nat := 4
  const BOOSTED_YIELDS_FACTORS_ARRAY_LEN: nat := USER_MAX_CLAIM_WEEKS + 1

  datatype BoostedYieldsFactors = BoostedYieldsFactors(
    maxRewardsFactor: nat, userRewardsEnergyConst: nat, userRewardsFarmConst: nat, minEnergyAmount: nat,
    minFarmAmount: nat)

  /** A counter kept for every week. */
  function At(m: map<Week, nat>, week: Week): nat {
    if week in m then m[week] else 0
  }

  lemma AtRemoved(m: map<Week, nat>, week: Week)
    ensures forall w: Week :: At(m - {week}, w) == if w == week then 0 else At(m, w)
  {
  }

  /** What is kept in storage. */
  datatype StoredConfig = StoredConfig(lastUpdateWeek: Week, factorsPerWeek: seq<BoostedYieldsFactors>)

  // ---- The history the window stands for ----

  datatype Change = Change(week: Week, factors: BoostedYieldsFactors)

  /** All changes ever made, the first being the initial factors. */
  ghost predicate IsHistory(log: seq<Change>) {
    log != [] && forall i, j :: 0 <= i < j < |log| ==> log[i].week <= log[j].week
  }

  /** The factors last in force in a week: those of the latest change up to it, the initial ones before any. */
  ghost function InForce(log: seq<Change>, week: int): BoostedYieldsFactors
    requires log != []
  {
    var last := log[|log| - 1];
    if |log| == 1 || last.week <= week then last.factors else InForce(log[..|log| - 1], week)
  }

  /** The window holds the factors of its last weeks. */
  ghost predicate Represents(c: StoredConfig, log: seq<Change>) {
    && IsHistory(log) && log[|log| - 1].week <= c.lastUpdateWeek
    && |c.factorsPerWeek| == BOOSTED_YIELDS_FACTORS_ARRAY_LEN
    && forall k :: 0 <= k < BOOSTED_YIELDS_FACTORS_ARRAY_LEN ==>
         c.factorsPerWeek[k] == InForce(log, c.lastUpdateWeek - (BOOSTED_YIELDS_FACTORS_ARRAY_LEN - 1 - k))
  }

  /** Nothing but the history and the week of the last update decides the window. */
  lemma WindowDetermined(c: StoredConfig, c': StoredConfig, log: seq<Change>)
    requires Represents(c, log) && Represents(c', log) && c.lastUpdateWeek == c'.lastUpdateWeek
    ensures c == c'
  {
    hide InForce;
  }

  /** After the last change nothing changes any more. */
  lemma InForceSinceLast(log: seq<Change>, week: int)
    requires IsHistory(log) && log[|log| - 1].week <= week
    ensures InForce(log, week) == log[|log| - 1].factors
  {
  }

  /** A change leaves the weeks before it alone. */
  lemma PastIsSettled(log: seq<Change>, change: Change, week: int)
    requires IsHistory(log) && week < change.week
    ensures InForce(log + [change], week) == InForce(log, week)
  {
    assert (log + [change])[..|log|] == log;
  }

  lemma ChangeAdded(log: seq<Change>, change: Change)
    requires IsHistory(log) && log[|log| - 1].week <= change.week
    ensures IsHistory(log + [change])
    ensures forall week: int :: week < change.week ==> InForce(log + [change], week) == InForce(log, week)
    ensures forall week: int :: change.week <= week ==> InForce(log + [change], week) == change.factors
  {
    forall i, j | 0 <= i < j < |log + [change]|
      ensures (log + [change])[i].week <= (log + [change])[j].week
    {
      assert log[i].week <= log[|log| - 1].week;
    }
    forall week: int | week < change.week
      ensures InForce(log + [change], week) == InForce(log, week)
    {
      PastIsSettled(log, change, week);
    }
  }

  /** The history after an update: longer by the change, if there was one. */
  ghost function Changed(log: seq<Change>, week: Week, optFactors: Option<BoostedYieldsFactors>): seq<Change> {
    if optFactors.Some? then log + [Change(week, optFactors.value)] else log
  }

  /** How Changed answers: the new factors from the week of the change on, the old answers before it. */
  lemma ChangedInForce(log: seq<Change>, week: Week, optFactors: Option<BoostedYieldsFactors>, asked: int)
    requires IsHistory(log) && log[|log| - 1].week <= week && asked <= week
    ensures IsHistory(Changed(log, week, optFactors))
    ensures Changed(log, week, optFactors)[|Changed(log, week, optFactors)| - 1].week <= week
    ensures InForce(Changed(log, week, optFactors), asked) ==
              if asked == week then (if optFactors.Some? then optFactors.value else log[|log| - 1].factors)
              else InForce(log, asked)
  {
    hide InForce;
    if optFactors.Some? {
      ChangeAdded(log, Change(week, optFactors.value));
    } else if asked == week {
      InForceSinceLast(log, week);
    }
  }

  /** Dropping the oldest weeks and repeating the latest factors moves the window along the history. */
  lemma WindowShifted(c: StoredConfig, c': StoredConfig, optFactors: Option<BoostedYieldsFactors>, log: seq<Change>,
                      weekDiff: nat)
    requires Represents(c, log) && c.lastUpdateWeek < c'.lastUpdateWeek
    requires 0 < weekDiff <= BOOSTED_YIELDS_FACTORS_ARRAY_LEN && weekDiff <= c'.lastUpdateWeek - c.lastUpdateWeek
    requires weekDiff == c'.lastUpdateWeek - c.lastUpdateWeek || weekDiff == BOOSTED_YIELDS_FACTORS_ARRAY_LEN
    requires ShiftedBy(c.factorsPerWeek, c'.factorsPerWeek, optFactors, weekDiff)
    ensures Represents(c', Changed(log, c'.lastUpdateWeek, optFactors))
  {
    hide InForce;
    InForceSinceLast(log, c.lastUpdateWeek);
    ChangedInForce(log, c'.lastUpdateWeek, optFactors, c'.lastUpdateWeek);
    forall k | 0 <= k < BOOSTED_YIELDS_FACTORS_ARRAY_LEN
      ensures c'.factorsPerWeek[k] ==
                InForce(Changed(log, c'.lastUpdateWeek, optFactors),
                        c'.lastUpdateWeek - (BOOSTED_YIELDS_FACTORS_ARRAY_LEN - 1 - k))
    {
      var week := c'.lastUpdateWeek - (BOOSTED_YIELDS_FACTORS_ARRAY_LEN - 1 - k);
      ChangedInForce(log, c'.lastUpdateWeek, optFactors, week);
      if c.lastUpdateWeek <= week {
        InForceSinceLast(log, week);
      }
    }
  }

  /** The window's entries before and after, by position. */
  ghost predicate ShiftedBy(before: seq<BoostedYieldsFactors>, after: seq<BoostedYieldsFactors>,
                            optFactors: Option<BoostedYieldsFactors>, weekDiff: nat)
    requires 0 < weekDiff <= |before| && |before| == BOOSTED_YIELDS_FACTORS_ARRAY_LEN
  {
    && |after| == |before|
    && (forall k :: 0 <= k < |before| - weekDiff ==> after[k] == before[k + weekDiff])
    && (forall k :: |before| - weekDiff <= k < |before| - 1 ==> after[k] == before[|before| - 1])
    && after[|before| - 1] == if optFactors.Some? then optFactors.value else before[|before| - 1]
  }

  /** A change in the week of the last update replaces the latest factors. */
  lemma LatestReplaced(c: StoredConfig, factors: BoostedYieldsFactors, log: seq<Change>)
    requires Represents(c, log)
    ensures Represents(c.(factorsPerWeek := c.factorsPerWeek[BOOSTED_YIELDS_FACTORS_ARRAY_LEN - 1 := factors]),
                       Changed(log, c.lastUpdateWeek, Some(factors)))
  {
    hide InForce;
    ChangeAdded(log, Change(c.lastUpdateWeek, factors));
  }

  class BoostedYieldsConfig {
    var lastUpdateWeek: Week
    var factorsPerWeek: seq<BoostedYieldsFactors>

    function Stored(): StoredConfig
      reads this
    {
      StoredConfig(lastUpdateWeek, factorsPerWeek)
    }

    constructor (currentWeek: Week, factors: BoostedYieldsFactors)
      ensures Represents(Stored(), [Change(currentWeek, factors)]) && lastUpdateWeek == currentWeek
    {
      lastUpdateWeek, factorsPerWeek := currentWeek, [];
      new;
      for i := 0 to BOOSTED_YIELDS_FACTORS_ARRAY_LEN
        invariant lastUpdateWeek == currentWeek && |factorsPerWeek| == i
        invariant forall k :: 0 <= k < i ==> factorsPerWeek[k] == factors
      {
        factorsPerWeek := factorsPerWeek + [factors];
      }
    }

    constructor Load(c: StoredConfig)
      ensures Stored() == c
    {
      lastUpdateWeek, factorsPerWeek := c.lastUpdateWeek, c.factorsPerWeek;
    }

    /** Only a change enters the history; the window moves along without altering it, however far it jumps. */
    method Update(currentWeek: Week, optNewBoostFactors: Option<BoostedYieldsFactors>,
                  ghost log: seq<Change>) returns (ok: bool)
      requires Represents(Stored(), log)
      modifies this
      ensures ok <==> old(lastUpdateWeek) <= currentWeek
      ensures !ok ==> Stored() == old(Stored())
      ensures ok ==>
                lastUpdateWeek == currentWeek && Represents(Stored(), Changed(log, currentWeek, optNewBoostFactors))
    {
      if currentWeek < lastUpdateWeek {
        return false;
      }
      ghost var before := Stored();
      assert |factorsPerWeek| == BOOSTED_YIELDS_FACTORS_ARRAY_LEN;
      hide Represents, InForce, IsHistory;
      var weekDiff := currentWeek - lastUpdateWeek;
      weekDiff := if weekDiff <= BOOSTED_YIELDS_FACTORS_ARRAY_LEN then weekDiff else BOOSTED_YIELDS_FACTORS_ARRAY_LEN;
      if weekDiff == 0 {
        if optNewBoostFactors.Some? {
          LatestReplaced(Stored(), optNewBoostFactors.value, log);
          factorsPerWeek := factorsPerWeek[BOOSTED_YIELDS_FACTORS_ARRAY_LEN - 1 := optNewBoostFactors.value];
        }
        return true;
      }
      var currentLastFactors := factorsPerWeek[BOOSTED_YIELDS_FACTORS_ARRAY_LEN - 1];
      factorsPerWeek := factorsPerWeek[weekDiff..];
      for i := 0 to weekDiff - 1
        invariant lastUpdateWeek == before.lastUpdateWeek
        invariant |factorsPerWeek| == BOOSTED_YIELDS_FACTORS_ARRAY_LEN - weekDiff + i
        invariant forall k :: 0 <= k < BOOSTED_YIELDS_FACTORS_ARRAY_LEN - weekDiff ==>
                  factorsPerWeek[k] == before.factorsPerWeek[k + weekDiff]
        invariant forall k :: BOOSTED_YIELDS_FACTORS_ARRAY_LEN - weekDiff <= k < |factorsPerWeek| ==>
                  factorsPerWeek[k] == currentLastFactors
      {
        factorsPerWeek := factorsPerWeek + [currentLastFactors];
      }
      var latestConfig := if optNewBoostFactors.Some? then optNewBoostFactors.value else currentLastFactors;
      factorsPerWeek := factorsPerWeek + [latestConfig];
      lastUpdateWeek := currentWeek;
      WindowShifted(before, Stored(), optNewBoostFactors, log, weekDiff);
      return true;
    }

    /** The window answers for the weeks before the last update, as far back as it reaches, as the history would. */
    method GetFactorsForWeek(week: Week, ghost log: seq<Change>) returns (r: Result<BoostedYieldsFactors>)
      requires Represents(Stored(), log)
      ensures r.Success? <==> week < lastUpdateWeek < week + BOOSTED_YIELDS_FACTORS_ARRAY_LEN
      ensures r.Success? ==> r.value == InForce(log, week)
    {
      hide InForce;
      if week >= lastUpdateWeek {
        return Failure;
      }
      var offset := lastUpdateWeek - week;
      if offset >= BOOSTED_YIELDS_FACTORS_ARRAY_LEN {
        return Failure;
      }
      var lastItemIndex := BOOSTED_YIELDS_FACTORS_ARRAY_LEN - 1;
      return Success(factorsPerWeek[lastItemIndex - offset]);
    }

    method GetLatestFactors(ghost log: seq<Change>) returns (r: BoostedYieldsFactors)
      requires Represents(Stored(), log)
      ensures r == InForce(log, lastUpdateWeek)
    {
      r := factorsPerWeek[BOOSTED_YIELDS_FACTORS_ARRAY_LEN - 1];
    }
  }
}
