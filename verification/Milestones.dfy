/** legacy-contracts/factory-legacy/src/locked_asset.rs: unlock schedules whose percents always make up the whole. */
module Milestones {
  import opened Arith

  const ONE_MILLION: nat := 1_000_000
  const TEN_THOUSAND: nat := 10_000
  const PERCENTAGE_TOTAL_EX: nat := 100_000
  const MAX_MILESTONES_IN_SCHEDULE: nat := 64
  const PRECISION_EX_INCREASE: nat := 1_000

  datatype UnlockMilestoneEx = UnlockMilestoneEx(unlockEpoch: nat, unlockPercent: nat)

  // ---- Sums over schedules ----

  ghost function PercentSum(s: seq<UnlockMilestoneEx>): nat {
    if s == [] then 0 else PercentSum(s[..|s| - 1]) + s[|s| - 1].unlockPercent
  }

  /** The part that is unlocked, and the part that is still to come. */
  ghost function UnlockedSum(s: seq<UnlockMilestoneEx>, epoch: nat): nat {
    if s == [] then 0
    else UnlockedSum(s[..|s| - 1], epoch) + if s[|s| - 1].unlockEpoch <= epoch then s[|s| - 1].unlockPercent else 0
  }

  ghost function Later(s: seq<UnlockMilestoneEx>, epoch: nat): (r: seq<UnlockMilestoneEx>)
    ensures |r| <= |s|
  {
    if s == [] then []
    else Later(s[..|s| - 1], epoch) + if s[|s| - 1].unlockEpoch > epoch then [s[|s| - 1]] else []
  }

  /** Whole percent units, milestones with a fraction of one, and the fractions themselves. */
  ghost function Quotients(s: seq<UnlockMilestoneEx>): nat {
    if s == [] then 0 else Quotients(s[..|s| - 1]) + s[|s| - 1].unlockPercent / TEN_THOUSAND
  }

  function Fraction(m: UnlockMilestoneEx): (r: nat)
    ensures r < TEN_THOUSAND
  {
    m.unlockPercent % TEN_THOUSAND
  }

  ghost function Inexact(s: seq<UnlockMilestoneEx>): (n: nat)
    ensures n <= |s|
  {
    if s == [] then 0 else Inexact(s[..|s| - 1]) + if Fraction(s[|s| - 1]) > 0 then 1 else 0
  }

  /** Every milestone is in part still to come or unlocked already. */
  lemma {:induction false} UnlockedAndLater(s: seq<UnlockMilestoneEx>, epoch: nat)
    ensures UnlockedSum(s, epoch) + PercentSum(Later(s, epoch)) == PercentSum(s)
  {
    if s != [] {
      var init, last := s[..|s| - 1], s[|s| - 1];
      UnlockedAndLater(init, epoch);
      if last.unlockEpoch > epoch {
        assert (Later(init, epoch) + [last])[..|Later(init, epoch)|] == Later(init, epoch);
      } else {
        assert Later(s, epoch) == Later(init, epoch);
      }
    }
  }

  lemma {:induction false} SumsUpdated(s: seq<UnlockMilestoneEx>, k: nat, m: UnlockMilestoneEx)
    requires k < |s|
    ensures Quotients(s[k := m]) == Quotients(s) - s[k].unlockPercent / TEN_THOUSAND + m.unlockPercent / TEN_THOUSAND
    ensures Inexact(s[k := m])
         == Inexact(s) - (if Fraction(s[k]) > 0 then 1 else 0) + (if Fraction(m) > 0 then 1 else 0)
  {
    hide Fraction;
    var n := |s| - 1;
    if k == n {
      assert s[k := m][..n] == s[..n];
    } else {
      SumsUpdated(s[..n], k, m);
      assert s[k := m][..n] == s[..n][k := m];
    }
  }

  lemma SumsStep(s: seq<UnlockMilestoneEx>, i: nat)
    requires i < |s|
    ensures Quotients(s[..i + 1]) == Quotients(s[..i]) + s[i].unlockPercent / TEN_THOUSAND
    ensures NonZero(s[..i + 1]) ==
              NonZero(s[..i]) + if s[i].unlockPercent / TEN_THOUSAND != 0
                then [UnlockMilestoneEx(s[i].unlockEpoch, s[i].unlockPercent / TEN_THOUSAND)] else []
  {
    assert s[..i + 1][..i] == s[..i];
  }

  lemma {:induction false} SomeInexact(s: seq<UnlockMilestoneEx>)
    requires Inexact(s) > 0
    ensures exists i :: 0 <= i < |s| && Fraction(s[i]) > 0
  {
    if Fraction(s[|s| - 1]) == 0 {
      SomeInexact(s[..|s| - 1]);
    }
  }

  // ---- Handing out what rounding left over ----

  /** Rounding may move a milestone up by one unit, and only if it has a fraction. */
  ghost predicate RoundedOnce(m: UnlockMilestoneEx, m': UnlockMilestoneEx) {
    && m'.unlockEpoch == m.unlockEpoch
    && m.unlockPercent / TEN_THOUSAND <= m'.unlockPercent / TEN_THOUSAND
         <= m.unlockPercent / TEN_THOUSAND + if Fraction(m) > 0 then 1 else 0
  }

  ghost predicate AllRoundedOnce(s: seq<UnlockMilestoneEx>, s': seq<UnlockMilestoneEx>) {
    |s| == |s'| && forall i :: 0 <= i < |s| ==> RoundedOnce(s[i], s'[i])
  }

  /** There can be no more units to hand out than there are fractions to round up. */
  lemma {:induction false} RoundedOnceBound(s: seq<UnlockMilestoneEx>, s': seq<UnlockMilestoneEx>)
    requires AllRoundedOnce(s, s')
    ensures Quotients(s') <= Quotients(s) + Inexact(s)
  {
    if s != [] {
      var n := |s| - 1;
      assert RoundedOnce(s[n], s'[n]);
      forall i | 0 <= i < n
        ensures RoundedOnce(s[..n][i], s'[..n][i])
      {
        assert RoundedOnce(s[i], s'[i]);
      }
      RoundedOnceBound(s[..n], s'[..n]);
    }
  }

  /** i comes before j in the order of largest fraction first, the later milestone first among equals. */
  ghost predicate Outranks(s: seq<UnlockMilestoneEx>, i: nat, j: nat)
    requires i < |s| && j < |s|
  {
    Fraction(s[i]) > Fraction(s[j]) || (Fraction(s[i]) == Fraction(s[j]) && i > j)
  }

  function RoundedUp(m: UnlockMilestoneEx): (r: UnlockMilestoneEx)
    ensures Fraction(r) == 0 && r.unlockPercent / TEN_THOUSAND == m.unlockPercent / TEN_THOUSAND + 1
  {
    UnlockMilestoneEx(m.unlockEpoch, (m.unlockPercent / TEN_THOUSAND + 1) * TEN_THOUSAND)
  }

  /** `up` are the milestones rounded up so far: once each, and before all others. */
  ghost predicate RoundedInOrder(s: seq<UnlockMilestoneEx>, s': seq<UnlockMilestoneEx>, up: set<nat>) {
    && |s| == |s'|
    && (forall i :: i in up ==> i < |s| && Fraction(s[i]) > 0 && s'[i] == RoundedUp(s[i]))
    && (forall i :: 0 <= i < |s| && i !in up ==> s'[i] == s[i])
    && (forall i, j :: i in up && 0 <= j < |s| && j !in up ==> i < |s| && Outranks(s, i, j))
  }

  ghost predicate IsLastLargest(s: seq<UnlockMilestoneEx>, k: nat) {
    && k < |s|
    && (forall j :: 0 <= j < |s| ==> Fraction(s[j]) <= Fraction(s[k]))
    && (forall j :: k < j < |s| ==> Fraction(s[j]) < Fraction(s[k]))
  }

  lemma NextInOrder(s: seq<UnlockMilestoneEx>, s': seq<UnlockMilestoneEx>, up: set<nat>, k: nat)
    requires RoundedInOrder(s, s', up) && IsLastLargest(s', k) && Fraction(s'[k]) > 0
    ensures k !in up && RoundedInOrder(s, s'[k := RoundedUp(s'[k])], up + {k})
  {
    hide Fraction;
    assert k !in up;
    forall j | 0 <= j < |s| && j !in up && j != k
      ensures Outranks(s, k, j)
    {
      assert s'[j] == s[j] && s'[k] == s[k];
    }
  }

  lemma InOrderIsOnce(s: seq<UnlockMilestoneEx>, s': seq<UnlockMilestoneEx>, up: set<nat>)
    requires RoundedInOrder(s, s', up)
    ensures AllRoundedOnce(s, s')
  {
    hide Fraction;
    forall i | 0 <= i < |s|
      ensures RoundedOnce(s[i], s'[i])
    {
      if i in up {
        assert s'[i] == RoundedUp(s[i]);
      }
    }
  }

  /** The search of one round: the last milestone with the largest fraction. */
  method LargestFraction(a: array<UnlockMilestoneEx>) returns (maxRoundingErrorIndex: nat)
    requires a.Length > 0
    ensures IsLastLargest(a[..], maxRoundingErrorIndex)
  {
    var maxRoundingError := 0;
    maxRoundingErrorIndex := 0;
    for index := 0 to a.Length
      invariant maxRoundingErrorIndex < a.Length
      invariant index > 0 ==> maxRoundingErrorIndex < index && maxRoundingError == Fraction(a[maxRoundingErrorIndex])
      invariant index == 0 ==> maxRoundingError == 0
      invariant forall j :: 0 <= j < index ==> Fraction(a[j]) <= maxRoundingError
      invariant forall j :: maxRoundingErrorIndex < j < index ==> Fraction(a[j]) < maxRoundingError
    {
      var roundingError := Fraction(a[index]);
      if roundingError >= maxRoundingError {
        maxRoundingError, maxRoundingErrorIndex := roundingError, index;
      }
    }
  }

  /** In place: units are handed out one by one, each to the last milestone with the largest fraction, until the whole
      is reached. No milestone gets more than rounding up its fraction iff there are at least as many fractions as
      units; then the ones rounded up are those with the largest fractions. */
  method DistributeLeftover(a: array<UnlockMilestoneEx>) returns (ghost up: set<nat>)
    requires a.Length > 0 && Quotients(a[..]) <= PERCENTAGE_TOTAL_EX
    modifies a
    ensures Quotients(a[..]) == PERCENTAGE_TOTAL_EX
    ensures forall i :: 0 <= i < a.Length ==> a[i].unlockEpoch == old(a[..])[i].unlockEpoch
    ensures AllRoundedOnce(old(a[..]), a[..]) <==> PERCENTAGE_TOTAL_EX - old(Quotients(a[..])) <= old(Inexact(a[..]))
    ensures AllRoundedOnce(old(a[..]), a[..]) ==> RoundedInOrder(old(a[..]), a[..], up)
  {
    hide Fraction, RoundedInOrder, IsLastLargest, AllRoundedOnce, Inexact;
    ghost var before := a[..];
    var sumOfNewPercents := SumOfQuotients(a);
    var leftover := PERCENTAGE_TOTAL_EX - sumOfNewPercents;
    ghost var few := leftover <= Inexact(before);
    up := {};
    NothingRounded(before);
    while leftover != 0
      invariant 0 <= leftover && Quotients(a[..]) + leftover == PERCENTAGE_TOTAL_EX
      invariant forall i :: 0 <= i < a.Length ==> a[i].unlockEpoch == before[i].unlockEpoch
      invariant few ==> leftover <= Inexact(a[..]) && RoundedInOrder(before, a[..], up)
    {
      ghost var current := a[..];
      var k := LargestFraction(a);
      leftover := leftover - 1;
      LargestIsInexact(current, k);
      SumsUpdated(current, k, RoundedUp(current[k]));
      a[k] := RoundedUp(a[k]);
      assert a[..] == current[k := RoundedUp(current[k])];
      if few {
        NextInOrder(before, current, up, k);
        up := up + {k};
      }
    }
    if few {
      InOrderIsOnce(before, a[..], up);
    } else if AllRoundedOnce(before, a[..]) {
      RoundedOnceBound(before, a[..]);
      assert false;
    }
  }

  /** An input on which a milestone is raised without a fraction: all units go to a milestone of none. */
  method HandedToAnEmptyMilestone(epoch: nat) returns (a: array<UnlockMilestoneEx>)
    ensures fresh(a) && a.Length == 1
    ensures a[0].unlockEpoch == epoch && a[0].unlockPercent / TEN_THOUSAND == PERCENTAGE_TOTAL_EX
    ensures !AllRoundedOnce([UnlockMilestoneEx(epoch, 0)], a[..])
  {
    hide AllRoundedOnce;
    a := new UnlockMilestoneEx[1](_ => UnlockMilestoneEx(epoch, 0));
    assert a[..] == [UnlockMilestoneEx(epoch, 0)];
    NothingWhole(epoch);
    ghost var up := DistributeLeftover(a);
    assert a[..] == [a[0]];
    assert Quotients([a[0]]) == a[0].unlockPercent / TEN_THOUSAND by {
      assert [a[0]][..0] == [];
    }
  }

  lemma NothingWhole(epoch: nat)
    ensures Quotients([UnlockMilestoneEx(epoch, 0)]) == 0 == Inexact([UnlockMilestoneEx(epoch, 0)])
  {
    assert [UnlockMilestoneEx(epoch, 0)][..0] == [];
  }

  lemma NothingRounded(s: seq<UnlockMilestoneEx>)
    ensures RoundedInOrder(s, s, {})
  {
  }

  lemma LargestIsInexact(s: seq<UnlockMilestoneEx>, k: nat)
    requires IsLastLargest(s, k)
    ensures k < |s| && (Inexact(s) > 0 ==> Fraction(s[k]) > 0)
  {
    if Inexact(s) > 0 {
      SomeInexact(s);
    }
  }

  method SumOfQuotients(a: array<UnlockMilestoneEx>) returns (sum: nat)
    ensures sum == Quotients(a[..])
  {
    sum := 0;
    for i := 0 to a.Length
      invariant sum == Quotients(a[..i])
    {
      SumsStep(a[..], i);
      assert a[..][..i + 1] == a[..i + 1] && a[..][..i] == a[..i];
      sum := sum + a[i].unlockPercent / TEN_THOUSAND;
    }
    assert a[..a.Length] == a[..];
  }

  // ---- Dropping empty milestones ----

  ghost function NonZero(s: seq<UnlockMilestoneEx>): (r: seq<UnlockMilestoneEx>)
    ensures |r| <= |s|
  {
    if s == [] then []
    else
      var last := s[|s| - 1];
      NonZero(s[..|s| - 1])
        + if last.unlockPercent / TEN_THOUSAND != 0
          then [UnlockMilestoneEx(last.unlockEpoch, last.unlockPercent / TEN_THOUSAND)] else []
  }

  lemma {:induction false} NonZeroKeepsSum(s: seq<UnlockMilestoneEx>)
    ensures PercentSum(NonZero(s)) == Quotients(s)
    ensures forall m :: m in NonZero(s) ==> m.unlockPercent > 0
  {
    if s != [] {
      var init, last := s[..|s| - 1], s[|s| - 1];
      NonZeroKeepsSum(init);
      if last.unlockPercent / TEN_THOUSAND != 0 {
        var m := UnlockMilestoneEx(last.unlockEpoch, last.unlockPercent / TEN_THOUSAND);
        assert (NonZero(init) + [m])[..|NonZero(init)|] == NonZero(init);
      } else {
        assert NonZero(s) == NonZero(init);
      }
    }
  }

  method GetNonZeroPercentMilestonesAsVec(a: array<UnlockMilestoneEx>) returns (r: seq<UnlockMilestoneEx>)
    ensures r == NonZero(a[..])
  {
    r := [];
    for i := 0 to a.Length
      invariant r == NonZero(a[..i])
    {
      SumsStep(a[..], i);
      assert a[..][..i + 1] == a[..i + 1] && a[..][..i] == a[..i];
      var percentRounded := a[i].unlockPercent / TEN_THOUSAND;
      if percentRounded != 0 {
        r := r + [UnlockMilestoneEx(a[i].unlockEpoch, percentRounded)];
      }
    }
    assert a[..a.Length] == a[..];
  }

  // ---- Schedules ----

  ghost predicate IsSchedule(s: seq<UnlockMilestoneEx>) {
    |s| <= MAX_MILESTONES_IN_SCHEDULE && PercentSum(s) == PERCENTAGE_TOTAL_EX
  }

  method GetUnlockPercent(currentEpoch: nat, unlockMilestones: seq<UnlockMilestoneEx>) returns (unlockPercent: nat)
    requires IsSchedule(unlockMilestones)
    ensures unlockPercent == UnlockedSum(unlockMilestones, currentEpoch) <= PERCENTAGE_TOTAL_EX
  {
    unlockPercent := 0;
    for i := 0 to |unlockMilestones|
      invariant unlockPercent == UnlockedSum(unlockMilestones[..i], currentEpoch)
    {
      assert unlockMilestones[..i + 1][..i] == unlockMilestones[..i];
      if unlockMilestones[i].unlockEpoch <= currentEpoch {
        unlockPercent := unlockPercent + unlockMilestones[i].unlockPercent;
      }
    }
    assert unlockMilestones[..|unlockMilestones|] == unlockMilestones;
    UnlockedAndLater(unlockMilestones, currentEpoch);
  }

  /** Once the last milestone has passed, the whole amount is unlocked. */
  lemma AllUnlockedInTheEnd(s: seq<UnlockMilestoneEx>, epoch: nat, amount: nat)
    requires IsSchedule(s) && forall m :: m in s ==> m.unlockEpoch <= epoch
    ensures amount * UnlockedSum(s, epoch) / PERCENTAGE_TOTAL_EX == amount
  {
    NoneLater(s, epoch);
    UnlockedAndLater(s, epoch);
    FloorExact(amount, amount * PERCENTAGE_TOTAL_EX, PERCENTAGE_TOTAL_EX);
  }

  lemma {:induction false} NoneLater(s: seq<UnlockMilestoneEx>, epoch: nat)
    requires forall m :: m in s ==> m.unlockEpoch <= epoch
    ensures Later(s, epoch) == []
  {
    if s != [] {
      NoneLater(s[..|s| - 1], epoch);
    }
  }

  /** What each later milestone becomes: its share of what remains, in ten-thousandths of a unit. */
  function Rescaled(m: UnlockMilestoneEx, remaining: nat): UnlockMilestoneEx
    requires remaining > 0
  {
    FloorNat(m.unlockPercent * PRECISION_EX_INCREASE * ONE_MILLION, remaining);
    UnlockMilestoneEx(m.unlockEpoch, m.unlockPercent * PRECISION_EX_INCREASE * ONE_MILLION / remaining)
  }

  ghost predicate AllRescaled(later: seq<UnlockMilestoneEx>, s: seq<UnlockMilestoneEx>, remaining: nat)
    requires remaining > 0
  {
    |s| == |later| && forall i :: 0 <= i < |s| ==> s[i] == Rescaled(later[i], remaining)
  }

  /** The rescaled shares miss the whole by less than one ten-thousandth each, so there are never more units left over
      than fractions. */
  lemma {:induction false} RescaledSum(later: seq<UnlockMilestoneEx>, s: seq<UnlockMilestoneEx>, remaining: nat)
    requires remaining > 0 && AllRescaled(later, s, remaining)
    ensures PercentSum(s) * remaining <= PercentSum(later) * (PRECISION_EX_INCREASE * ONE_MILLION)
         <= (PercentSum(s) + |s|) * remaining
    ensures TEN_THOUSAND * Quotients(s) <= PercentSum(s)
         <= TEN_THOUSAND * Quotients(s) + (TEN_THOUSAND - 1) * Inexact(s)
  {
    hide Rescaled, Fraction;
    if s != [] {
      var n := |s| - 1;
      RescaledSum(later[..n], s[..n], remaining);
      RescaledStep(later[n], s[n], remaining);
      MulDistributes(PercentSum(s[..n]), s[n].unlockPercent, remaining);
      MulDistributes(PercentSum(s[..n]) + n, s[n].unlockPercent + 1, remaining);
    }
  }

  lemma RescaledStep(m: UnlockMilestoneEx, m': UnlockMilestoneEx, remaining: nat)
    requires remaining > 0 && m' == Rescaled(m, remaining)
    ensures var p, q := m.unlockPercent, m'.unlockPercent;
            && q * remaining <= p * (PRECISION_EX_INCREASE * ONE_MILLION) < (q + 1) * remaining
            && q == TEN_THOUSAND * (q / TEN_THOUSAND) + Fraction(m')
  {
    FloorOf(m.unlockPercent * PRECISION_EX_INCREASE * ONE_MILLION, remaining);
  }

  /** In ten-thousandths of a unit, each is the floor of its exact share of the whole. */
  ghost predicate AreShares(later: seq<UnlockMilestoneEx>, s: seq<UnlockMilestoneEx>, remaining: nat) {
    |s| == |later| && forall i :: 0 <= i < |s| ==>
      s[i].unlockEpoch == later[i].unlockEpoch
      && IsFloor(s[i].unlockPercent, later[i].unlockPercent * (PERCENTAGE_TOTAL_EX * TEN_THOUSAND), remaining)
  }

  lemma RescaledAreShares(later: seq<UnlockMilestoneEx>, s: seq<UnlockMilestoneEx>, remaining: nat)
    requires remaining > 0 && AllRescaled(later, s, remaining)
    ensures AreShares(later, s, remaining)
  {
    hide IsFloor;
    forall i | 0 <= i < |s|
      ensures IsFloor(s[i].unlockPercent, later[i].unlockPercent * (PERCENTAGE_TOTAL_EX * TEN_THOUSAND), remaining)
    {
      FloorOf(later[i].unlockPercent * PRECISION_EX_INCREASE * ONE_MILLION, remaining);
    }
  }

  lemma FewLeftOver(later: seq<UnlockMilestoneEx>, s: seq<UnlockMilestoneEx>, remaining: nat)
    requires remaining > 0 && AllRescaled(later, s, remaining)
    requires PercentSum(later) == remaining && |s| <= MAX_MILESTONES_IN_SCHEDULE
    ensures s != [] && Quotients(s) <= PERCENTAGE_TOTAL_EX && PERCENTAGE_TOTAL_EX - Quotients(s) <= Inexact(s)
  {
    RescaledSum(later, s, remaining);
    var whole := PRECISION_EX_INCREASE * ONE_MILLION;
    LeOfMul(PercentSum(s), whole, remaining);
    LeOfMul(whole, PercentSum(s) + |s|, remaining);
  }

  /** Each new percent is its exact share of what remains, rounded down or up: it is off by less than one unit. */
  ghost predicate WithinQuota(later: seq<UnlockMilestoneEx>, shares: seq<UnlockMilestoneEx>, remaining: nat) {
    && |shares| == |later|
    && forall i :: 0 <= i < |shares| ==>
         && shares[i].unlockEpoch == later[i].unlockEpoch
         && ShareOf(later[i].unlockPercent, shares[i].unlockPercent / TEN_THOUSAND, remaining)
  }

  ghost predicate ShareOf(p: int, share: int, remaining: int) {
    (share - 1) * remaining < p * PERCENTAGE_TOTAL_EX < (share + 1) * remaining
  }

  lemma RoundedShare(m: UnlockMilestoneEx, m': UnlockMilestoneEx, remaining: nat)
    requires remaining > 0 && RoundedOnce(Rescaled(m, remaining), m')
    ensures m'.unlockEpoch == m.unlockEpoch && ShareOf(m.unlockPercent, m'.unlockPercent / TEN_THOUSAND, remaining)
  {
    var v: int := Rescaled(m, remaining).unlockPercent;
    var share: int := m'.unlockPercent / TEN_THOUSAND;
    FloorOf(m.unlockPercent * PERCENTAGE_TOTAL_EX * TEN_THOUSAND, remaining);
    NearExact(v, share, m.unlockPercent * PERCENTAGE_TOTAL_EX, remaining);
  }

  lemma NearExact(v: int, share: int, exact: int, remaining: int)
    requires remaining > 0 && v * remaining <= exact * TEN_THOUSAND < (v + 1) * remaining
    requires share * TEN_THOUSAND < v + TEN_THOUSAND && v < (share + 1) * TEN_THOUSAND
    ensures (share - 1) * remaining < exact < (share + 1) * remaining
  {
    MulLt((share - 1) * TEN_THOUSAND, v, remaining);
    MulLe(v + 1, (share + 1) * TEN_THOUSAND, remaining);
    assert (share - 1) * TEN_THOUSAND * remaining == (share - 1) * remaining * TEN_THOUSAND;
    assert (share + 1) * TEN_THOUSAND * remaining == (share + 1) * remaining * TEN_THOUSAND;
    LtOfMul((share - 1) * remaining, exact, TEN_THOUSAND);
    LtOfMul(exact, (share + 1) * remaining, TEN_THOUSAND);
  }

  lemma QuotaKept(later: seq<UnlockMilestoneEx>, s: seq<UnlockMilestoneEx>, shares: seq<UnlockMilestoneEx>,
                  remaining: nat)
    requires remaining > 0 && AllRescaled(later, s, remaining) && AllRoundedOnce(s, shares)
    ensures WithinQuota(later, shares, remaining)
  {
    hide Rescaled, RoundedOnce, ShareOf;
    forall i | 0 <= i < |shares|
      ensures shares[i].unlockEpoch == later[i].unlockEpoch
      ensures ShareOf(later[i].unlockPercent, shares[i].unlockPercent / TEN_THOUSAND, remaining)
    {
      assert RoundedOnce(s[i], shares[i]);
      RoundedShare(later[i], shares[i], remaining);
    }
  }

  /** The schedule of what is still locked, as a schedule of its own. */
  method CreateNewUnlockMilestones(currentEpoch: nat, oldMilestones: seq<UnlockMilestoneEx>)
    returns (r: seq<UnlockMilestoneEx>, ghost shares: seq<UnlockMilestoneEx>, ghost exact: seq<UnlockMilestoneEx>,
             ghost up: set<nat>)
    requires IsSchedule(oldMilestones)
    ensures UnlockedSum(oldMilestones, currentEpoch) <= PERCENTAGE_TOTAL_EX
    ensures UnlockedSum(oldMilestones, currentEpoch) == PERCENTAGE_TOTAL_EX ==> r == []
    ensures UnlockedSum(oldMilestones, currentEpoch) != PERCENTAGE_TOTAL_EX ==>
              var remaining := PERCENTAGE_TOTAL_EX - UnlockedSum(oldMilestones, currentEpoch);
              && IsSchedule(r)
              && (forall m :: m in r ==> m.unlockPercent > 0)
              && r == NonZero(shares)
              && WithinQuota(Later(oldMilestones, currentEpoch), shares, remaining)
              && AreShares(Later(oldMilestones, currentEpoch), exact, remaining) && RoundedInOrder(exact, shares, up)
  {
    hide Fraction, AllRescaled, AreShares, AllRoundedOnce, RoundedInOrder, WithinQuota, Quotients, Inexact, NonZero,
         Later, UnlockedSum, PercentSum;
    shares, exact, up := [], [], {};
    var unlockPercent := GetUnlockPercent(currentEpoch, oldMilestones);
    var unlockPercentRemaining := PERCENTAGE_TOTAL_EX - unlockPercent;
    UnlockedAndLater(oldMilestones, currentEpoch);
    ghost var later := Later(oldMilestones, currentEpoch);
    if unlockPercentRemaining == 0 {
      return [], [], [], {};
    }
    var merged := RescaleLater(currentEpoch, oldMilestones, unlockPercentRemaining);
    var a := new UnlockMilestoneEx[|merged|](i requires 0 <= i < |merged| => merged[i]);
    assert a[..] == merged;
    FewLeftOver(later, merged, unlockPercentRemaining);
    up := DistributeLeftover(a);
    shares, exact := a[..], merged;
    QuotaKept(later, merged, shares, unlockPercentRemaining);
    RescaledAreShares(later, merged, unlockPercentRemaining);
    r := GetNonZeroPercentMilestonesAsVec(a);
    NonZeroKeepsSum(shares);
  }

  method RescaleLater(currentEpoch: nat, oldMilestones: seq<UnlockMilestoneEx>,
                      remaining: nat) returns (merged: seq<UnlockMilestoneEx>)
    requires remaining > 0
    ensures AllRescaled(Later(oldMilestones, currentEpoch), merged, remaining) && |merged| <= |oldMilestones|
  {
    hide Rescaled;
    merged := [];
    for i := 0 to |oldMilestones|
      invariant AllRescaled(Later(oldMilestones[..i], currentEpoch), merged, remaining)
    {
      assert oldMilestones[..i + 1][..i] == oldMilestones[..i];
      if oldMilestones[i].unlockEpoch > currentEpoch {
        merged := merged + [Rescaled(oldMilestones[i], remaining)];
      }
    }
    assert oldMilestones[..|oldMilestones|] == oldMilestones;
  }
}
