/** Lock options and what they decide: month boundaries and early-unlock penalties. */
module LockOptions {
  import opened Chain
  import opened Wrappers
  import opened Arith
  import opened Math

  const EPOCHS_PER_MONTH: nat := 30
  const EPOCHS_PER_YEAR: nat := 12 * EPOCHS_PER_MONTH
  const MAX_PENALTY_PERCENTAGE: nat := 10000
  const MAX_LOCK_OPTIONS: nat := 10

  datatype LockOption = LockOption(lockEpochs: Epoch, penaltyStartPercentage: nat)

  ghost predicate IsTable(t: seq<LockOption>) {
    && 0 < |t| <= MAX_LOCK_OPTIONS
    && (forall o :: o in t ==> EPOCHS_PER_YEAR <= o.lockEpochs && o.penaltyStartPercentage <= MAX_PENALTY_PERCENTAGE)
    && (forall i, j :: 0 <= i < j < |t| ==>
          t[i].lockEpochs < t[j].lockEpochs && t[i].penaltyStartPercentage < t[j].penaltyStartPercentage)
  }

  function LongestLock(t: seq<LockOption>): Epoch
    requires t != []
  {
    t[|t| - 1].lockEpochs
  }

  // ---- Adding options ----

  ghost predicate Sorted(s: seq<LockOption>) {
    forall i, j :: 0 <= i < j < |s| ==> s[i].lockEpochs <= s[j].lockEpochs
  }

  lemma SortedSnoc(s: seq<LockOption>, o: LockOption)
    requires Sorted(s) && forall x :: x in s ==> x.lockEpochs <= o.lockEpochs
    ensures Sorted(s + [o])
  {
  }

  function Insert(s: seq<LockOption>, o: LockOption): (r: seq<LockOption>)
    requires Sorted(s)
    ensures Sorted(r) && multiset(r) == multiset(s) + multiset{o}
    ensures forall x :: x in r ==> x in s || x == o
  {
    if s == [] || s[|s| - 1].lockEpochs <= o.lockEpochs then
      SortedSnoc(s, o);
      s + [o]
    else
      var init, last := s[..|s| - 1], s[|s| - 1];
      assert s == init + [last];
      var r := Insert(init, o);
      SortedSnoc(r, last);
      r + [last]
  }

  /** Stands for the library sort by lock epochs. */
  function SortLockOptions(options: seq<LockOption>): (r: seq<LockOption>)
    ensures Sorted(r) && multiset(r) == multiset(options)
  {
    if options == [] then []
    else
      var last := |options| - 1;
      assert options == options[..last] + [options[last]];
      Insert(SortLockOptions(options[..last]), options[last])
  }

  lemma LeastFirst(s: seq<LockOption>, t: seq<LockOption>)
    requires Sorted(s) && multiset(s) == multiset(t) && s != [] && t != []
    requires forall i, j :: 0 <= i < j < |t| ==> t[i].lockEpochs < t[j].lockEpochs
    ensures s[0] == t[0]
  {
    assert s[0] in multiset(t) && t[0] in multiset(s);
    var j :| 0 <= j < |t| && t[j] == s[0];
    var k :| 0 <= k < |s| && s[k] == t[0];
  }

  lemma TailsMatch(s: seq<LockOption>, t: seq<LockOption>)
    requires s != [] && t != [] && s[0] == t[0] && multiset(s) == multiset(t)
    ensures multiset(s[1..]) == multiset(t[1..])
  {
    assert s == [s[0]] + s[1..] && t == [t[0]] + t[1..];
    assert multiset(s[1..]) == multiset(s) - multiset{s[0]};
    assert multiset(t[1..]) == multiset(t) - multiset{t[0]};
  }

  /** A strictly ascending arrangement is the only sorted one. */
  lemma {:induction false} SortedUnique(s: seq<LockOption>, t: seq<LockOption>)
    requires Sorted(s) && multiset(s) == multiset(t)
    requires forall i, j :: 0 <= i < j < |t| ==> t[i].lockEpochs < t[j].lockEpochs
    ensures s == t
  {
    SortedElements(s, t);
    if s != [] {
      LeastFirst(s, t);
      TailsMatch(s, t);
      SortedUnique(s[1..], t[1..]);
      assert s == [s[0]] + s[1..] && t == [t[0]] + t[1..];
    }
  }

  lemma NeighboursDecide(s: seq<LockOption>)
    requires 0 < |s| <= MAX_LOCK_OPTIONS && Sorted(s)
    requires EachValid(s)
    ensures IsTable(s) <==> forall i :: 0 <= i < |s| - 1 ==> NeighboursOk(s, i)
  {
    if forall i :: 0 <= i < |s| - 1 ==> NeighboursOk(s, i) {
      forall i, j | 0 <= i < j < |s|
        ensures s[i].lockEpochs < s[j].lockEpochs && s[i].penaltyStartPercentage < s[j].penaltyStartPercentage
      {
        NeighboursChain(s, i, j);
      }
    }
  }

  ghost predicate NeighboursOk(s: seq<LockOption>, i: nat)
    requires i < |s| - 1
  {
    s[i].lockEpochs != s[i + 1].lockEpochs && s[i].penaltyStartPercentage < s[i + 1].penaltyStartPercentage
  }

  lemma {:induction false} NeighboursChain(s: seq<LockOption>, i: nat, j: nat)
    requires Sorted(s) && i < j < |s| && forall k :: 0 <= k < |s| - 1 ==> NeighboursOk(s, k)
    ensures s[i].lockEpochs < s[j].lockEpochs && s[i].penaltyStartPercentage < s[j].penaltyStartPercentage
    decreases j
  {
    assert NeighboursOk(s, j - 1);
    if i < j - 1 {
      NeighboursChain(s, i, j - 1);
    }
  }

  /** Some arrangement of the options is a table. */
  ghost predicate Arrangeable(m: multiset<LockOption>) {
    exists t :: multiset(t) == m && IsTable(t)
  }

  lemma ArrangeableOnlyIf(all: seq<LockOption>)
    requires Arrangeable(multiset(all))
    ensures 0 < |all| <= MAX_LOCK_OPTIONS
    ensures EachValid(all) && IsTable(SortLockOptions(all))
  {
    var t :| multiset(t) == multiset(all) && IsTable(t);
    assert |t| == |multiset(t)| == |multiset(all)| == |all|;
    assert forall o :: o in all ==> o in multiset(t);
    SortedUnique(SortLockOptions(all), t);
  }

  ghost predicate EachValid(s: seq<LockOption>) {
    forall o :: o in s ==> EPOCHS_PER_YEAR <= o.lockEpochs && o.penaltyStartPercentage <= MAX_PENALTY_PERCENTAGE
  }

  method PushLockOptions(options: seq<LockOption>, newOptions: seq<LockOption>) returns (r: Result<seq<LockOption>>)
    requires EachValid(options)
    ensures r.Success? <==> EachValid(options + newOptions)
    ensures r.Success? ==> r.value == options + newOptions
  {
    var pushed := options;
    for n := 0 to |newOptions|
      invariant pushed == options + newOptions[..n] && EachValid(pushed)
    {
      var o := newOptions[n];
      if o.lockEpochs < EPOCHS_PER_YEAR || o.penaltyStartPercentage > MAX_PENALTY_PERCENTAGE {
        assert (options + newOptions)[|options| + n] == o;
        return Failure;
      }
      pushed := pushed + [o];
    }
    assert pushed == options + newOptions;
    return Success(pushed);
  }

  method RequireValidNeighbours(sorted: seq<LockOption>) returns (ok: bool)
    requires sorted != []
    ensures ok <==> forall i :: 0 <= i < |sorted| - 1 ==> NeighboursOk(sorted, i)
  {
    for i := 0 to |sorted| - 1
      invariant forall k :: 0 <= k < i ==> sorted[k].lockEpochs != sorted[k + 1].lockEpochs
    {
      if sorted[i].lockEpochs == sorted[i + 1].lockEpochs {
        assert !NeighboursOk(sorted, i);
        return false;
      }
    }
    for i := 0 to |sorted| - 1
      invariant forall k :: 0 <= k < i ==> NeighboursOk(sorted, k)
    {
      if sorted[i].penaltyStartPercentage >= sorted[i + 1].penaltyStartPercentage {
        assert !NeighboursOk(sorted, i);
        return false;
      }
    }
    return true;
  }

  /** addLockOptions accepts exactly when the old and new options together can be arranged as a table, and stores that
      arrangement. (An empty total reverts: the checks index before the first option.) */
  method AddLockOptions(options: seq<LockOption>, newOptions: seq<LockOption>) returns (r: Result<seq<LockOption>>)
    requires options == [] || IsTable(options)
    ensures r.Success? <==> Arrangeable(multiset(options + newOptions))
    ensures r.Success? ==> IsTable(r.value) && multiset(r.value) == multiset(options + newOptions)
  {
    if Arrangeable(multiset(options + newOptions)) {
      ArrangeableOnlyIf(options + newOptions);
    }
    if |options| + |newOptions| > MAX_LOCK_OPTIONS || |options| + |newOptions| == 0 {
      return Failure;
    }
    var pushed := PushLockOptions(options, newOptions);
    if pushed.Failure? {
      return Failure;
    }
    var sorted := SortLockOptions(pushed.value);
    SortedElements(pushed.value, sorted);
    NeighboursDecide(sorted);
    var ok := RequireValidNeighbours(sorted);
    return if ok then Success(sorted) else Failure;
  }

  lemma SortedElements(s: seq<LockOption>, t: seq<LockOption>)
    requires multiset(s) == multiset(t)
    ensures |s| == |t| && forall o :: o in t ==> o in s
  {
    assert |s| == |multiset(s)| == |multiset(t)| == |t|;
    assert forall o :: o in t ==> o in multiset(s);
  }

  /** Options are never taken away, so the longest lock never shrinks. */
  lemma OptionsOnlyGrow(t: seq<LockOption>, more: multiset<LockOption>, t': seq<LockOption>)
    requires IsTable(t) && IsTable(t') && multiset(t') == multiset(t) + more
    ensures LongestLock(t) <= LongestLock(t')
  {
    assert t[|t| - 1] in multiset(t');
  }

  // ---- Month boundaries ----

  function UnlockEpochToStartOfMonth(unlockEpoch: Epoch): Epoch {
    unlockEpoch - unlockEpoch % EPOCHS_PER_MONTH
  }

  function UnlockEpochToStartOfMonthUpperEstimate(unlockEpoch: Epoch, currentEpoch: Epoch, t: seq<LockOption>): Epoch
    requires t != []
  {
    var lowerBoundUnlock := UnlockEpochToStartOfMonth(unlockEpoch);
    var newUnlockEpoch := lowerBoundUnlock + EPOCHS_PER_MONTH;
    if unlockEpoch == lowerBoundUnlock then lowerBoundUnlock
    else if currentEpoch >= newUnlockEpoch then newUnlockEpoch
    else if newUnlockEpoch - currentEpoch <= LongestLock(t) then newUnlockEpoch
    else lowerBoundUnlock
  }

  /** Where a locked token unlocks: at the start of a month, and no later than the longest lock from now. */
  ghost predicate InHorizon(unlockEpoch: Epoch, currentEpoch: Epoch, t: seq<LockOption>)
    requires t != []
  {
    unlockEpoch % EPOCHS_PER_MONTH == 0 && unlockEpoch <= currentEpoch + LongestLock(t)
  }

  ghost predicate IsListed(t: seq<LockOption>, lockEpochs: Epoch) {
    exists o :: o in t && o.lockEpochs == lockEpochs
  }

  lemma StartOfMonthInHorizon(lockEpochs: Epoch, currentEpoch: Epoch, t: seq<LockOption>)
    requires IsTable(t) && IsListed(t, lockEpochs)
    ensures var e := UnlockEpochToStartOfMonth(currentEpoch + lockEpochs);
            && InHorizon(e, currentEpoch, t) && currentEpoch < e
            && currentEpoch + lockEpochs - EPOCHS_PER_MONTH < e <= currentEpoch + lockEpochs
  {
  }

  /** Rounding a merged unlock epoch up never leaves the horizon, never makes it past, and moves it by less than a
      month; it is rounded down only where the month above is out of reach. */
  lemma UpperEstimateInHorizon(unlockEpoch: Epoch, currentEpoch: Epoch, t: seq<LockOption>)
    requires IsTable(t) && currentEpoch < unlockEpoch <= currentEpoch + LongestLock(t)
    ensures var e := UnlockEpochToStartOfMonthUpperEstimate(unlockEpoch, currentEpoch, t);
            && InHorizon(e, currentEpoch, t) && currentEpoch < e
            && unlockEpoch - EPOCHS_PER_MONTH < e < unlockEpoch + EPOCHS_PER_MONTH
            && (unlockEpoch % EPOCHS_PER_MONTH == 0 ==> e == unlockEpoch)
            && (unlockEpoch % EPOCHS_PER_MONTH != 0 ==>
                  var monthAbove := unlockEpoch - unlockEpoch % EPOCHS_PER_MONTH + EPOCHS_PER_MONTH;
                  e == monthAbove <==> monthAbove <= currentEpoch + LongestLock(t))
  {
  }

  // ---- Penalties ----

  /** The corners of the penalty curve: no penalty for no time, then the options. */
  function Corner(t: seq<LockOption>, i: nat): LockOption
    requires i <= |t|
  {
    if i == 0 then LockOption(0, 0) else t[i - 1]
  }

  lemma CornersAscend(t: seq<LockOption>, i: nat, j: nat)
    requires IsTable(t) && i < j <= |t|
    ensures Corner(t, i).lockEpochs < Corner(t, j).lockEpochs
    ensures Corner(t, i).penaltyStartPercentage <= Corner(t, j).penaltyStartPercentage
    ensures 0 < i ==> Corner(t, i).penaltyStartPercentage < Corner(t, j).penaltyStartPercentage
    ensures Corner(t, j).penaltyStartPercentage <= MAX_PENALTY_PERCENTAGE
  {
    assert t[j - 1] in t;
  }

  /** The first segment, counting from i, whose right corner is not before `remaining`. */
  function Segment(t: seq<LockOption>, remaining: Epoch, i: nat): (s: nat)
    requires i < |t| && remaining <= LongestLock(t) && Corner(t, i).lockEpochs <= remaining
    ensures i <= s < |t| && Corner(t, s).lockEpochs <= remaining <= Corner(t, s + 1).lockEpochs
    ensures forall k :: i < k <= s ==> Corner(t, k).lockEpochs < remaining
    decreases |t| - i
  {
    if remaining <= t[i].lockEpochs then i else Segment(t, remaining, i + 1)
  }

  /** The penalty curve on segment s. */
  function OnSegment(t: seq<LockOption>, s: nat, remaining: Epoch): nat
    requires s < |t| && Corner(t, s).lockEpochs <= remaining <= Corner(t, s + 1).lockEpochs
    requires Corner(t, s).lockEpochs < Corner(t, s + 1).lockEpochs
  {
    LinearInterpolation(Corner(t, s).lockEpochs, Corner(t, s + 1).lockEpochs, remaining,
                        Corner(t, s).penaltyStartPercentage, Corner(t, s + 1).penaltyStartPercentage)
  }

  ghost function FullPenalty(t: seq<LockOption>, remaining: Epoch): nat
    requires IsTable(t) && remaining <= LongestLock(t)
  {
    var s := Segment(t, remaining, 0);
    CornersAscend(t, s, s + 1);
    OnSegment(t, s, remaining)
  }

  /** q is the floor of the point at `remaining` of the line between two options. */
  ghost predicate IsBetween(q: nat, from: LockOption, to: LockOption, remaining: Epoch) {
    IsFloor(q, from.penaltyStartPercentage * (to.lockEpochs - remaining)
               + to.penaltyStartPercentage * (remaining - from.lockEpochs), to.lockEpochs - from.lockEpochs)
  }

  /** What a full unlock costs: the line from nothing to the first option, and those from each option to the next. */
  ghost predicate IsFullPenalty(q: nat, t: seq<LockOption>, remaining: Epoch)
    requires t != []
  {
    && (remaining <= t[0].lockEpochs ==> IsBetween(q, LockOption(0, 0), t[0], remaining))
    && forall i :: 0 <= i < |t| - 1 && t[i].lockEpochs <= remaining <= t[i + 1].lockEpochs ==>
         IsBetween(q, t[i], t[i + 1], remaining)
  }

  lemma OnSegmentIsBetween(t: seq<LockOption>, s: nat, remaining: Epoch)
    requires s < |t| && Corner(t, s).lockEpochs <= remaining <= Corner(t, s + 1).lockEpochs
    requires Corner(t, s).lockEpochs < Corner(t, s + 1).lockEpochs
    ensures IsBetween(OnSegment(t, s, remaining), Corner(t, s), Corner(t, s + 1), remaining)
  {
    var from, to := Corner(t, s), Corner(t, s + 1);
    FloorOf(from.penaltyStartPercentage * (to.lockEpochs - remaining)
            + to.penaltyStartPercentage * (remaining - from.lockEpochs), to.lockEpochs - from.lockEpochs);
  }

  /** Whichever pair of options brackets the remaining time, the penalty is the floor of the line between them. */
  lemma FullPenaltyIs(t: seq<LockOption>, remaining: Epoch)
    requires IsTable(t) && remaining <= LongestLock(t)
    ensures IsFullPenalty(FullPenalty(t, remaining), t, remaining)
  {
    hide OnSegment, IsBetween, FullPenalty;
    var q := FullPenalty(t, remaining);
    if remaining <= t[0].lockEpochs {
      AnySegment(t, 0, remaining);
      OnSegmentIsBetween(t, 0, remaining);
    }
    forall i | 0 <= i < |t| - 1 && t[i].lockEpochs <= remaining <= t[i + 1].lockEpochs
      ensures IsBetween(q, t[i], t[i + 1], remaining)
    {
      AnySegment(t, i + 1, remaining);
      OnSegmentIsBetween(t, i + 1, remaining);
    }
  }

  /** There is only one such penalty. */
  lemma FullPenaltyDetermined(t: seq<LockOption>, remaining: Epoch, q: nat)
    requires IsTable(t) && remaining <= LongestLock(t) && IsFullPenalty(q, t, remaining)
    ensures q == FullPenalty(t, remaining)
  {
    hide FullPenalty;
    var s := Segment(t, remaining, 0);
    CornersAscend(t, s, s + 1);
    AnySegment(t, s, remaining);
    var from, to := Corner(t, s), Corner(t, s + 1);
    assert IsBetween(q, from, to, remaining);
    FloorExact(q, from.penaltyStartPercentage * (to.lockEpochs - remaining)
                  + to.penaltyStartPercentage * (remaining - from.lockEpochs), to.lockEpochs - from.lockEpochs);
  }

  /** The segment search of the contract finds a bracketing pair for every remaining time it accepts. */
  method CalculatePenaltyPercentageFullUnlock(t: seq<LockOption>, lockEpochsRemaining: Epoch) returns (r: Result<nat>)
    requires IsTable(t)
    ensures r.Success? <==> lockEpochsRemaining <= LongestLock(t)
    ensures r.Success? ==> r.value == FullPenalty(t, lockEpochsRemaining)
    ensures r.Success? ==> IsFullPenalty(r.value, t, lockEpochsRemaining)
  {
    hide IsFullPenalty;
    var lastIndex := |t| - 1;
    if lockEpochsRemaining > t[lastIndex].lockEpochs {
      return Failure;
    }
    var prevOption, nextOption := LockOption(0, 0), LockOption(0, 0);
    ghost var s := Segment(t, lockEpochsRemaining, 0);
    CornersAscend(t, s, s + 1);
    if lastIndex > 0 && lockEpochsRemaining > t[0].lockEpochs {
      assert s > 0;
      for i := 0 to lastIndex
        invariant i < s
      {
        if t[i].lockEpochs <= lockEpochsRemaining && lockEpochsRemaining <= t[i + 1].lockEpochs {
          prevOption, nextOption := t[i], t[i + 1];
          assert Corner(t, i + 1) == prevOption && Corner(t, i + 2) == nextOption;
          break;
        }
        assert Corner(t, i + 1).lockEpochs <= lockEpochsRemaining && t[i + 1] == Corner(t, i + 2);
      }
    } else {
      nextOption := t[0];
    }
    FullPenaltyIs(t, lockEpochsRemaining);
    return Success(LinearInterpolation(prevOption.lockEpochs, nextOption.lockEpochs, lockEpochsRemaining,
                                       prevOption.penaltyStartPercentage, nextOption.penaltyStartPercentage));
  }

  /** Segments agree where they meet, so any bracketing segment gives the penalty. */
  lemma AnySegment(t: seq<LockOption>, s: nat, remaining: Epoch)
    requires IsTable(t) && remaining <= LongestLock(t)
    requires s < |t| && Corner(t, s).lockEpochs <= remaining <= Corner(t, s + 1).lockEpochs
    ensures Corner(t, s).lockEpochs < Corner(t, s + 1).lockEpochs
    ensures FullPenalty(t, remaining) == OnSegment(t, s, remaining)
  {
    var f := Segment(t, remaining, 0);
    CornersAscend(t, s, s + 1);
    CornersAscend(t, f, f + 1);
    if f != s {
      assert f < s;
      if f + 1 < s {
        CornersAscend(t, f + 1, s);
        assert false;
      }
      SegmentShape(t, f, remaining, remaining);
      SegmentShape(t, s, remaining, remaining);
    }
  }

  lemma SegmentShape(t: seq<LockOption>, s: nat, c: Epoch, d: Epoch)
    requires IsTable(t) && s < |t| && Corner(t, s).lockEpochs <= c <= d <= Corner(t, s + 1).lockEpochs
    ensures Corner(t, s).lockEpochs < Corner(t, s + 1).lockEpochs
    ensures OnSegment(t, s, c) <= OnSegment(t, s, d)
    ensures Corner(t, s).penaltyStartPercentage <= OnSegment(t, s, c) <= OnSegment(t, s, d)
    ensures OnSegment(t, s, d) <= Corner(t, s + 1).penaltyStartPercentage
    ensures c == Corner(t, s).lockEpochs ==> OnSegment(t, s, c) == Corner(t, s).penaltyStartPercentage
    ensures d == Corner(t, s + 1).lockEpochs ==> OnSegment(t, s, d) == Corner(t, s + 1).penaltyStartPercentage
    ensures c < Corner(t, s + 1).lockEpochs
            && Corner(t, s).penaltyStartPercentage < Corner(t, s + 1).penaltyStartPercentage ==>
              OnSegment(t, s, c) < Corner(t, s + 1).penaltyStartPercentage
  {
    CornersAscend(t, s, s + 1);
    var from, to := Corner(t, s), Corner(t, s + 1);
    InterpolationShape(from.lockEpochs, to.lockEpochs, c, d, from.penaltyStartPercentage, to.penaltyStartPercentage);
    InterpolationShape(from.lockEpochs, to.lockEpochs, d, d, from.penaltyStartPercentage, to.penaltyStartPercentage);
  }

  /** No time left costs nothing, and a full option period costs exactly the option's percentage. */
  lemma PenaltyAtOptions(t: seq<LockOption>, i: nat)
    requires IsTable(t) && i < |t|
    ensures t[i].lockEpochs <= LongestLock(t)
    ensures FullPenalty(t, t[i].lockEpochs) == t[i].penaltyStartPercentage
    ensures FullPenalty(t, 0) == 0
  {
    CornersAscend(t, i, i + 1);
    AnySegment(t, i, t[i].lockEpochs);
    SegmentShape(t, i, t[i].lockEpochs, t[i].lockEpochs);
    CornersAscend(t, 0, 1);
    AnySegment(t, 0, 0);
    SegmentShape(t, 0, 0, 0);
  }

  /** The longer the remaining lock, the higher the penalty. */
  lemma PenaltyMonotone(t: seq<LockOption>, c: Epoch, d: Epoch)
    requires IsTable(t) && c <= d <= LongestLock(t)
    ensures FullPenalty(t, c) <= FullPenalty(t, d)
  {
    var i, j := Segment(t, c, 0), Segment(t, d, 0);
    CornersAscend(t, i, i + 1);
    CornersAscend(t, j, j + 1);
    if i == j {
      SegmentShape(t, i, c, d);
    } else {
      SegmentShape(t, i, c, c);
      SegmentShape(t, j, d, d);
      assert i < j;
      if i + 1 < j {
        CornersAscend(t, i + 1, j);
      }
    }
  }

  /** Never above 100%, and strictly below it short of the longest lock. */
  lemma PenaltyBounded(t: seq<LockOption>, remaining: Epoch)
    requires IsTable(t) && remaining <= LongestLock(t)
    ensures FullPenalty(t, remaining) <= MAX_PENALTY_PERCENTAGE
    ensures remaining < LongestLock(t) ==> FullPenalty(t, remaining) < MAX_PENALTY_PERCENTAGE
  {
    var s := Segment(t, remaining, 0);
    CornersAscend(t, s, s + 1);
    SegmentShape(t, s, remaining, remaining);
    if s + 1 < |t| {
      CornersAscend(t, s + 1, |t|);
    }
  }

  /** The share lost when the lock is reduced, such that unlocking the rest later costs about what unlocking at once
      would have. */
  ghost function PartialPenalty(t: seq<LockOption>, prev: Epoch, next: Epoch): nat
    requires IsTable(t) && next < prev <= LongestLock(t)
  {
    PenaltyMonotone(t, next, prev);
    PenaltyBounded(t, next);
    var f, n := FullPenalty(t, prev), FullPenalty(t, next);
    FloorNat((f - n) * MAX_PENALTY_PERCENTAGE, MAX_PENALTY_PERCENTAGE - n);
    (f - n) * MAX_PENALTY_PERCENTAGE / (MAX_PENALTY_PERCENTAGE - n)
  }

  ghost function PenaltyAmount(t: seq<LockOption>, amount: nat, prev: Epoch, next: Epoch): nat
    requires IsTable(t) && next < prev <= LongestLock(t)
  {
    var share := if next == 0 then FullPenalty(t, prev) else PartialPenalty(t, prev, next);
    FloorNat(amount * share, MAX_PENALTY_PERCENTAGE);
    amount * share / MAX_PENALTY_PERCENTAGE
  }

  /** What a reduction costs, from what the full unlocks before and after it would. */
  ghost predicate IsPartialPenalty(q: nat, t: seq<LockOption>, prev: Epoch, next: Epoch)
    requires t != []
  {
    exists f: nat, n: nat ::
      && IsFullPenalty(f, t, prev) && IsFullPenalty(n, t, next)
      && IsFloor(q, (f - n) * MAX_PENALTY_PERCENTAGE, MAX_PENALTY_PERCENTAGE - n)
  }

  ghost predicate IsPenaltyAmount(penalty: nat, t: seq<LockOption>, amount: nat, prev: Epoch, next: Epoch)
    requires t != []
  {
    exists share: nat ::
      && (if next == 0 then IsFullPenalty(share, t, prev) else IsPartialPenalty(share, t, prev, next))
      && IsFloor(penalty, amount * share, MAX_PENALTY_PERCENTAGE)
  }

  lemma PartialPenaltyIs(t: seq<LockOption>, prev: Epoch, next: Epoch, f: nat, n: nat)
    requires IsTable(t) && next < prev <= LongestLock(t) && f == FullPenalty(t, prev) && n == FullPenalty(t, next)
    ensures n <= f && n < MAX_PENALTY_PERCENTAGE
    ensures PartialPenalty(t, prev, next) == (f - n) * MAX_PENALTY_PERCENTAGE / (MAX_PENALTY_PERCENTAGE - n)
  {
    PenaltyMonotone(t, next, prev);
    PenaltyBounded(t, next);
  }

  method CalculatePenaltyPercentagePartialUnlock(t: seq<LockOption>, prev: Epoch, next: Epoch) returns (r: Result<nat>)
    requires IsTable(t) && next < prev
    ensures r.Success? <==> prev <= LongestLock(t)
    ensures r.Success? ==> r.value == PartialPenalty(t, prev, next)
    ensures r.Success? ==> IsPartialPenalty(r.value, t, prev, next)
  {
    hide IsFullPenalty;
    var prevPenalty := CalculatePenaltyPercentageFullUnlock(t, prev);
    var newPenalty := CalculatePenaltyPercentageFullUnlock(t, next);
    if prevPenalty.Failure? || newPenalty.Failure? {
      return Failure;
    }
    PartialPenaltyIs(t, prev, next, prevPenalty.value, newPenalty.value);
    FloorOf((prevPenalty.value - newPenalty.value) * MAX_PENALTY_PERCENTAGE, MAX_PENALTY_PERCENTAGE - newPenalty.value);
    return Success((prevPenalty.value - newPenalty.value) * MAX_PENALTY_PERCENTAGE
                   / (MAX_PENALTY_PERCENTAGE - newPenalty.value));
  }

  method CalculatePenaltyAmount(t: seq<LockOption>, tokenAmount: nat, prev: Epoch, next: Epoch) returns (r: Result<nat>)
    requires IsTable(t)
    ensures r.Success? <==> next < prev <= LongestLock(t)
    ensures r.Success? ==> r.value == PenaltyAmount(t, tokenAmount, prev, next)
    ensures r.Success? ==> IsPenaltyAmount(r.value, t, tokenAmount, prev, next)
  {
    hide IsFullPenalty, IsPartialPenalty, FullPenalty, PartialPenalty;
    if prev == 0 || next >= prev {
      return Failure;
    }
    var share: Result<nat>;
    if next == 0 {
      share := CalculatePenaltyPercentageFullUnlock(t, prev);
    } else {
      share := CalculatePenaltyPercentagePartialUnlock(t, prev, next);
    }
    if share.Failure? {
      return Failure;
    }
    FloorOf(tokenAmount * share.value, MAX_PENALTY_PERCENTAGE);
    return Success(tokenAmount * share.value / MAX_PENALTY_PERCENTAGE);
  }

  lemma PartialShare(f: nat, n: nat, q: nat)
    requires n <= f <= MAX_PENALTY_PERCENTAGE && n < MAX_PENALTY_PERCENTAGE
    requires q == (f - n) * MAX_PENALTY_PERCENTAGE / (MAX_PENALTY_PERCENTAGE - n)
    ensures q <= MAX_PENALTY_PERCENTAGE
    ensures var m := MAX_PENALTY_PERCENTAGE;
            m * (m - f) <= (m - q) * (m - n) < m * (m - f) + (m - n)
  {
    var m := MAX_PENALTY_PERCENTAGE;
    FloorOf((f - n) * m, m - n);
    FloorGreatest(m + 1, (f - n) * m, m - n);
    assert (m - q) * (m - n) == m * (m - n) - q * (m - n);
  }

  lemma Remaining(amount: nat, share: nat)
    requires share <= MAX_PENALTY_PERCENTAGE
    ensures var m := MAX_PENALTY_PERCENTAGE;
            var rest := amount - amount * share / m;
            && 0 <= rest <= amount
            && amount * (m - share) <= m * rest < amount * (m - share) + m
  {
    FloorOf(amount * share, MAX_PENALTY_PERCENTAGE);
    FloorNat(amount * share, MAX_PENALTY_PERCENTAGE);
    assert amount * (MAX_PENALTY_PERCENTAGE - share) == amount * MAX_PENALTY_PERCENTAGE - amount * share;
    MulLe(share, MAX_PENALTY_PERCENTAGE, amount);
  }

  /** Going in two steps, x after the share g is kept and y after k is kept of x, leaves no less than d, what keeping
      the share e at once leaves. */
  lemma TwoStepsKeepEnough(a: int, e: int, g: int, k: int, x: int, y: int, d: int)
    requires 0 <= a && 0 < k
    requires MAX_PENALTY_PERCENTAGE * e <= g * k
    requires a * g <= MAX_PENALTY_PERCENTAGE * x
    requires x * k <= MAX_PENALTY_PERCENTAGE * y
    requires MAX_PENALTY_PERCENTAGE * d < a * e + MAX_PENALTY_PERCENTAGE
    ensures d <= y
  {
    MulLe(a * g, MAX_PENALTY_PERCENTAGE * x, k);
    MulLe(MAX_PENALTY_PERCENTAGE * e, g * k, a);
    assert a * g * k == g * k * a;
    assert MAX_PENALTY_PERCENTAGE * x * k == MAX_PENALTY_PERCENTAGE * (x * k);
    assert MAX_PENALTY_PERCENTAGE * e * a == MAX_PENALTY_PERCENTAGE * (a * e);
  }

  /** ... and hardly more. */
  lemma TwoStepsKeepLittleMore(a: int, e: int, g: int, k: int, x: int, y: int, d: int)
    requires 0 <= a && 0 < k <= MAX_PENALTY_PERCENTAGE
    requires g * k <= MAX_PENALTY_PERCENTAGE * e + k
    requires MAX_PENALTY_PERCENTAGE * x <= a * g + MAX_PENALTY_PERCENTAGE
    requires MAX_PENALTY_PERCENTAGE * y < x * k + MAX_PENALTY_PERCENTAGE
    requires a * e <= MAX_PENALTY_PERCENTAGE * d
    ensures y <= d + a / MAX_PENALTY_PERCENTAGE + 2
  {
    MulLe(MAX_PENALTY_PERCENTAGE * x, a * g + MAX_PENALTY_PERCENTAGE, k);
    MulLe(g * k, MAX_PENALTY_PERCENTAGE * e + k, a);
    MulLe(k, MAX_PENALTY_PERCENTAGE, a);
    assert MAX_PENALTY_PERCENTAGE * x * k == MAX_PENALTY_PERCENTAGE * (x * k);
    assert (a * g + MAX_PENALTY_PERCENTAGE) * k == g * k * a + MAX_PENALTY_PERCENTAGE * k;
    assert (MAX_PENALTY_PERCENTAGE * e + k) * a == MAX_PENALTY_PERCENTAGE * (a * e) + k * a;
    FloorGreatest(y - d - 2, a, MAX_PENALTY_PERCENTAGE);
  }

  /** Reducing the lock and then unlocking early in the same epoch never leaves less than unlocking at once, and at most
      a ten-thousandth of the amount plus two units more. */
  lemma ReduceThenUnlock(t: seq<LockOption>, amount: nat, prev: Epoch, next: Epoch)
    requires IsTable(t) && 0 < next < prev <= LongestLock(t)
    ensures PenaltyAmount(t, amount, prev, next) <= amount
    ensures var reduced := amount - PenaltyAmount(t, amount, prev, next);
            var after := reduced - PenaltyAmount(t, reduced, next, 0);
            var direct := amount - PenaltyAmount(t, amount, prev, 0);
            direct <= after <= direct + amount / MAX_PENALTY_PERCENTAGE + 2
  {
    var f, n, q := FullPenalty(t, prev), FullPenalty(t, next), PartialPenalty(t, prev, next);
    PenaltyMonotone(t, next, prev);
    PenaltyBounded(t, prev);
    PenaltyBounded(t, next);
    PartialShare(f, n, q);
    Remaining(amount, q);
    var reduced := amount - PenaltyAmount(t, amount, prev, next);
    Remaining(reduced, n);
    Remaining(amount, f);
    var m := MAX_PENALTY_PERCENTAGE;
    var after, direct := reduced - PenaltyAmount(t, reduced, next, 0), amount - PenaltyAmount(t, amount, prev, 0);
    TwoStepsKeepEnough(amount, m - f, m - q, m - n, reduced, after, direct);
    TwoStepsKeepLittleMore(amount, m - f, m - q, m - n, reduced, after, direct);
  }
}
