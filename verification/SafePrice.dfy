/** The time-weighted price oracle of a pair: dex/pair/src/safe_price.rs and safe_price_view.rs. */
module SafePrice {
  import opened Wrappers
  import opened Arith

  const MAX_OBSERVATIONS: nat := 65536
  const DEFAULT_SAFE_PRICE_ROUNDS_OFFSET: nat := 600

  type Round = nat

  /** Both reserves and the LP supply, or sums of these. */
  datatype Amounts = Amounts(first: nat, second: nat, lp: nat) {
    predicate Positive() {
      first > 0 && second > 0 && lp > 0
    }

    function Plus(other: Amounts): Amounts {
      Amounts(first + other.first, second + other.second, lp + other.lp)
    }

    function Scale(k: nat): Amounts {
      Amounts(k * first, k * second, k * lp)
    }

    predicate AtMost(other: Amounts) {
      first <= other.first && second <= other.second && lp <= other.lp
    }
  }

  const NOTHING := Amounts(0, 0, 0)

  datatype PriceObservation = PriceObservation(accumulated: Amounts, weight: nat, round: Round)

  const DEFAULT_OBSERVATION := PriceObservation(NOTHING, 0, 0)

  // ---- What the oracle is meant to know: a plain running sum over rounds ----

  /** The sum of the first n rounds of a history. */
  ghost function SumTo(h: seq<Amounts>, n: nat): Amounts
    requires n <= |h|
  {
    if n == 0 then NOTHING else SumTo(h, n - 1).Plus(h[n - 1])
  }

  /** The observation of round r when h[k] is what round `first + k` is credited with. */
  ghost function Recorded(first: Round, h: seq<Amounts>, r: Round): PriceObservation
    requires first <= r < first + |h|
  {
    PriceObservation(SumTo(h, r - first + 1), r - first + 1, r)
  }

  ghost predicate IsRecorded(o: PriceObservation, first: Round, h: seq<Amounts>, r: Round) {
    first <= r < first + |h| && o == Recorded(first, h, r)
  }

  /** Rounds p + 1 .. q are all credited with the same amounts. */
  ghost predicate Flat(first: Round, h: seq<Amounts>, p: Round, q: Round)
    requires first <= p <= q < first + |h|
  {
    forall k :: p - first < k <= q - first ==> h[k] == h[q - first]
  }

  lemma ScaleStep(v: Amounts, n: nat)
    ensures v.Scale(0) == NOTHING
    ensures v.Scale(n + 1) == v.Scale(n).Plus(v)
  {
  }

  lemma {:induction false} SumConstant(h: seq<Amounts>, i: nat, j: nat, v: Amounts)
    requires i <= j <= |h|
    requires forall k :: i <= k < j ==> h[k] == v
    ensures SumTo(h, j) == SumTo(h, i).Plus(v.Scale(j - i))
    decreases j
  {
    if i == j {
      ScaleStep(v, 0);
    } else {
      SumConstant(h, i, j - 1, v);
      ScaleStep(v, j - 1 - i);
    }
  }

  lemma {:induction false} SumExtend(h: seq<Amounts>, t: seq<Amounts>, n: nat)
    requires n <= |h|
    ensures SumTo(h + t, n) == SumTo(h, n)
  {
    if n > 0 {
      SumExtend(h, t, n - 1);
    }
  }

  lemma {:induction false} SumMonotone(h: seq<Amounts>, i: nat, j: nat)
    requires i <= j <= |h|
    ensures SumTo(h, i).AtMost(SumTo(h, j))
    decreases j
  {
    if i < j {
      SumMonotone(h, i, j - 1);
    }
  }

  /** An answer about a past round is never revised by what happens later. */
  lemma AnswersArePermanent(first: Round, h: seq<Amounts>, t: seq<Amounts>, r: Round)
    requires first <= r < first + |h|
    ensures Recorded(first, h + t, r) == Recorded(first, h, r)
  {
    SumExtend(h, t, r - first + 1);
  }

  // ---- Recording ----

  function ComputeNewObservation(newRound: Round, amounts: Amounts, current: PriceObservation): PriceObservation
    requires current.round <= newRound
  {
    var newWeight := if current.round == 0 then 1 else newRound - current.round;
    PriceObservation(current.accumulated.Plus(amounts.Scale(newWeight)), current.weight + newWeight, newRound)
  }

  /** Weighting the current amounts by the rounds elapsed records the running sum of the new round. */
  lemma NewObservationIsRecorded(first: Round, h: seq<Amounts>, p: Round, q: Round, v: Amounts)
    requires 0 < first <= p < q < first + |h|
    requires forall k :: p - first < k <= q - first ==> h[k] == v
    ensures ComputeNewObservation(q, v, Recorded(first, h, p)) == Recorded(first, h, q)
  {
    SumConstant(h, p - first + 1, q - first + 1, v);
  }

  // ---- Interpolation ----

  function Interpolate(leftWeight: nat, left: nat, rightWeight: nat, right: nat): nat
    requires leftWeight + rightWeight > 0
  {
    FloorNat(leftWeight * left + rightWeight * right, leftWeight + rightWeight);
    (leftWeight * left + rightWeight * right) / (leftWeight + rightWeight)
  }

  function LinearInterpolation(left: PriceObservation, right: PriceObservation, searchRound: Round): PriceObservation
    requires left.round <= searchRound <= right.round && left.round < right.round
  {
    var leftWeight := right.round - searchRound;
    var rightWeight := searchRound - left.round;
    PriceObservation(
      Amounts(
        Interpolate(leftWeight, left.accumulated.first, rightWeight, right.accumulated.first),
        Interpolate(leftWeight, left.accumulated.second, rightWeight, right.accumulated.second),
        Interpolate(leftWeight, left.accumulated.lp, rightWeight, right.accumulated.lp)),
      left.weight + searchRound - left.round,
      searchRound)
  }

  lemma InterpolateExact(x: nat, y: nat, a: nat, v: nat)
    requires x + y > 0
    ensures Interpolate(x, a, y, a + (x + y) * v) == a + y * v
  {
    var d := x + y;
    assert x * a + y * (a + d * v) == (a + y * v) * d;
    MulLt(a + y * v, a + y * v + 1, d);
    FloorExact(a + y * v, x * a + y * (a + d * v), d);
  }

  lemma ComponentsExact(x: nat, y: nat, a: Amounts, v: Amounts)
    requires x + y > 0
    ensures var right, mid := a.Plus(v.Scale(x + y)), a.Plus(v.Scale(y));
            && Interpolate(x, a.first, y, right.first) == mid.first
            && Interpolate(x, a.second, y, right.second) == mid.second
            && Interpolate(x, a.lp, y, right.lp) == mid.lp
  {
    InterpolateExact(x, y, a.first, v.first);
    InterpolateExact(x, y, a.second, v.second);
    InterpolateExact(x, y, a.lp, v.lp);
  }

  /** Between neighbouring observations of a flat stretch the division is exact: interpolation returns what an update in
      that round would have recorded. */
  lemma InterpolationIsRecorded(first: Round, h: seq<Amounts>, p: Round, s: Round, q: Round)
    requires first <= p < s < q < first + |h|
    requires Flat(first, h, p, q)
    ensures LinearInterpolation(Recorded(first, h, p), Recorded(first, h, q), s) == Recorded(first, h, s)
  {
    var v := h[q - first];
    var a := SumTo(h, p - first + 1);
    SumConstant(h, p - first + 1, q - first + 1, v);
    SumConstant(h, p - first + 1, s - first + 1, v);
    ComponentsExact(q - s, s - p, a, v);
  }

  // ---- Weighted averages ----

  function ComputeWeightedAmounts(first: PriceObservation, last: PriceObservation): Result<Amounts>
    requires first.weight <= last.weight && first.accumulated.AtMost(last.accumulated)
  {
    var weightDiff := last.weight - first.weight;
    if weightDiff == 0 then Failure
    else
      FloorNat(last.accumulated.first - first.accumulated.first, weightDiff);
      FloorNat(last.accumulated.second - first.accumulated.second, weightDiff);
      FloorNat(last.accumulated.lp - first.accumulated.lp, weightDiff);
      Success(Amounts(
                (last.accumulated.first - first.accumulated.first) / weightDiff,
                (last.accumulated.second - first.accumulated.second) / weightDiff,
                if first.accumulated.lp > 0 then (last.accumulated.lp - first.accumulated.lp) / weightDiff else 0))
  }

  /** m is, for each of the three amounts, the floor of the mean of what rounds s + 1 .. e are credited with. */
  ghost predicate IsWindowMean(m: Amounts, first: Round, h: seq<Amounts>, s: Round, e: Round)
    requires first <= s < e < first + |h|
  {
    var from, to := SumTo(h, s - first + 1), SumTo(h, e - first + 1);
    && IsFloor(m.first, to.first - from.first, e - s)
    && IsFloor(m.second, to.second - from.second, e - s)
    && IsFloor(m.lp, to.lp - from.lp, e - s)
  }

  /** Observations of two rounds give the mean of what lies between them, or nothing if nothing does. */
  lemma WeightedAmountsAreMeans(first: Round, h: seq<Amounts>, s: Round, e: Round)
    requires first <= s <= e < first + |h|
    requires forall k :: 0 <= k < |h| ==> h[k].Positive()
    ensures Recorded(first, h, s).accumulated.AtMost(Recorded(first, h, e).accumulated)
    ensures Recorded(first, h, e).weight - Recorded(first, h, s).weight == e - s
    ensures var r := ComputeWeightedAmounts(Recorded(first, h, s), Recorded(first, h, e));
            (r.Success? <==> s < e) && (s < e ==> IsWindowMean(r.value, first, h, s, e))
  {
    if s == e {
      return;
    }
    SumMonotone(h, s - first + 1, e - first + 1);
    SumMonotone(h, 1, s - first + 1);
    assert SumTo(h, 1) == SumTo(h, 0).Plus(h[0]);
    var from, to := SumTo(h, s - first + 1), SumTo(h, e - first + 1);
    FloorOf(to.first - from.first, e - s);
    FloorOf(to.second - from.second, e - s);
    FloorOf(to.lp - from.lp, e - s);
  }

  lemma {:induction false} SumBetween(h: seq<Amounts>, i: nat, j: nat, lo: Amounts, hi: Amounts)
    requires i <= j <= |h|
    requires forall k :: i <= k < j ==> lo.AtMost(h[k]) && h[k].AtMost(hi)
    ensures SumTo(h, i).Plus(lo.Scale(j - i)).AtMost(SumTo(h, j))
    ensures SumTo(h, j).AtMost(SumTo(h, i).Plus(hi.Scale(j - i)))
    decreases j
  {
    if i == j {
      ScaleStep(lo, 0);
      ScaleStep(hi, 0);
    } else {
      SumBetween(h, i, j - 1, lo, hi);
      ScaleStep(lo, j - 1 - i);
      ScaleStep(hi, j - 1 - i);
    }
  }

  lemma FloorBetween(m: int, total: int, n: int, lo: int, hi: int)
    requires n > 0 && IsFloor(m, total, n) && n * lo <= total <= n * hi
    ensures lo <= m <= hi
  {
    FloorExact(m, total, n);
    FloorGreatest(lo, total, n);
    FloorGreatest(hi + 1, total, n);
  }

  /** A window mean lies between any bounds on the amounts of its rounds; in particular it is positive. */
  lemma WindowMeanBetween(m: Amounts, first: Round, h: seq<Amounts>, s: Round, e: Round, lo: Amounts, hi: Amounts)
    requires first <= s < e < first + |h| && IsWindowMean(m, first, h, s, e)
    requires forall k :: s - first < k <= e - first ==> lo.AtMost(h[k]) && h[k].AtMost(hi)
    ensures lo.AtMost(m) && m.AtMost(hi)
  {
    SumBetween(h, s - first + 1, e - first + 1, lo, hi);
    var from, to := SumTo(h, s - first + 1), SumTo(h, e - first + 1);
    FloorBetween(m.first, to.first - from.first, e - s, lo.first, hi.first);
    FloorBetween(m.second, to.second - from.second, e - s, lo.second, hi.second);
    FloorBetween(m.lp, to.lp - from.lp, e - s, lo.lp, hi.lp);
  }

  /** The mean of rounds that all hold something is positive, so no price divides by zero. */
  lemma WindowMeanPositive(m: Amounts, first: Round, h: seq<Amounts>, s: Round, e: Round)
    requires first <= s < e < first + |h| && IsWindowMean(m, first, h, s, e)
    requires forall k :: 0 <= k < |h| ==> h[k].Positive()
    ensures m.Positive()
  {
    WindowMeanBetween(m, first, h, s, e, Amounts(1, 1, 1), SumTo(h, |h|)) by {
      forall k | s - first < k <= e - first
        ensures h[k].AtMost(SumTo(h, |h|))
      {
        assert SumTo(h, k + 1) == SumTo(h, k).Plus(h[k]);
        SumMonotone(h, k + 1, |h|);
      }
    }
  }

  // ---- The ring ----

  ghost predicate Ascending(obs: seq<PriceObservation>, lo: nat, hi: nat)
    requires hi <= |obs|
  {
    forall i, j :: lo <= i < j < hi ==> obs[i].round < obs[j].round
  }

  /** Slots are 1-based, as in the storage vector: slot i is obs[i - 1] and `cur` is the newest slot.
      The slots up to `cur` are newer than the slots after it, and both runs ascend. */
  ghost predicate IsRing(obs: seq<PriceObservation>, cur: nat) {
    && |obs| <= MAX_OBSERVATIONS
    && (obs == [] <==> cur == 0)
    && cur <= |obs|
    && (|obs| < MAX_OBSERVATIONS ==> cur == |obs|)
    && Ascending(obs, 0, cur)
    && Ascending(obs, cur, |obs|)
    && (0 < cur < |obs| ==> obs[|obs| - 1].round < obs[0].round)
  }

  function OldestIndex(obs: seq<PriceObservation>, cur: nat): nat {
    if |obs| == MAX_OBSERVATIONS then cur % MAX_OBSERVATIONS + 1 else 1
  }

  /** Every slot holds the running sum of its round, and the rounds between a slot and the next newer one are all
      credited with the same amounts. */
  ghost predicate Faithful(obs: seq<PriceObservation>, cur: nat, first: Round, h: seq<Amounts>)
    requires obs == [] <==> cur == 0
    requires cur <= |obs|
  {
    && (forall i :: 0 <= i < |obs| ==>
          first <= obs[i].round < first + |h| && obs[i] == Recorded(first, h, obs[i].round))
    && (forall i, j :: 0 <= i < |obs| && i + 1 != cur && j == (if i + 1 == |obs| then 0 else i + 1) ==>
          obs[i].round < obs[j].round && Flat(first, h, obs[i].round, obs[j].round))
  }

  /** The newest slot is the latest round and the oldest slot the earliest. */
  lemma RingOrder(obs: seq<PriceObservation>, cur: nat)
    requires IsRing(obs, cur) && obs != []
    ensures 1 <= OldestIndex(obs, cur) <= |obs|
    ensures forall i :: 0 <= i < |obs| ==> obs[OldestIndex(obs, cur) - 1].round <= obs[i].round <= obs[cur - 1].round
  {
  }

  function Repeat(v: Amounts, n: nat): seq<Amounts> {
    seq(n, _ => v)
  }

  /** What a search for `round` delivers: the slot holding it, or the default observation together with a slot whose
      ring neighbour (MAX is followed by 1) lies on the other side of `round`. */
  ghost predicate IsSearchResult(obs: seq<PriceObservation>, cur: nat, round: Round, o: PriceObservation, slot: nat) {
    && 1 <= slot <= |obs|
    && if o.round > 0 then
         o == obs[slot - 1] && o.round == round
       else
         && (forall i :: 0 <= i < |obs| ==> obs[i].round != round)
         && if obs[slot - 1].round < round then
              slot != cur && slot % MAX_OBSERVATIONS + 1 <= |obs| && round < obs[slot % MAX_OBSERVATIONS].round
            else
              slot != 1 && slot - 1 != cur && obs[slot - 2].round < round < obs[slot - 1].round
  }

  /** Halfway through a search of slots lo .. hi: everything left of `left` is older than the round, everything right of
      `right` newer, and the last probe is next to what remains. */
  ghost predicate Narrowed(obs: seq<PriceObservation>, lo: nat, hi: nat, round: Round, left: int, right: int,
                           probe: nat)
    requires 1 <= lo && hi <= |obs|
  {
    && lo <= left <= right + 1 <= hi + 1
    && (forall i :: lo - 1 <= i < left - 1 ==> obs[i].round < round)
    && (forall i :: right <= i < hi ==> round < obs[i].round)
    && (left != lo || right != hi ==> lo <= probe <= hi && (probe == left - 1 || probe == right + 1))
  }

  /** The run of slots a search starts on: the one slot 1 belongs to, or the older one behind the newest slot. */
  ghost predicate IsSearchedRun(obs: seq<PriceObservation>, cur: nat, round: Round, lo: nat, hi: nat)
    requires obs != []
  {
    if obs[0].round <= round then lo == 1 && hi == cur - 1 else lo == cur + 1 && hi == |obs|
  }

  /** The round lies strictly before the newest observation and not before the oldest. */
  ghost predicate IsSearchable(obs: seq<PriceObservation>, cur: nat, round: Round) {
    && IsRing(obs, cur)
    && obs != []
    && 1 <= OldestIndex(obs, cur) <= |obs|
    && 0 < obs[OldestIndex(obs, cur) - 1].round <= round < obs[cur - 1].round
  }

  lemma SearchStarts(obs: seq<PriceObservation>, cur: nat, round: Round, lo: nat, hi: nat)
    requires IsSearchable(obs, cur, round) && IsSearchedRun(obs, cur, round, lo, hi)
    ensures 1 <= lo <= hi <= |obs| && Narrowed(obs, lo, hi, round, lo, hi, 1)
  {
  }

  lemma ProbeNarrows(obs: seq<PriceObservation>, cur: nat, round: Round, lo: nat, hi: nat, left: int, right: int,
                     probe: nat, mid: nat)
    requires IsSearchable(obs, cur, round) && IsSearchedRun(obs, cur, round, lo, hi) && 1 <= lo && hi <= |obs|
    requires Narrowed(obs, lo, hi, round, left, right, probe) && left <= mid <= right
    ensures obs[mid - 1].round == round ==> IsSearchResult(obs, cur, round, obs[mid - 1], mid)
    ensures obs[mid - 1].round < round ==> Narrowed(obs, lo, hi, round, mid + 1, right, mid)
    ensures round < obs[mid - 1].round ==> Narrowed(obs, lo, hi, round, left, mid - 1, mid)
  {
  }

  lemma SearchEnds(obs: seq<PriceObservation>, cur: nat, round: Round, lo: nat, hi: nat, left: int, right: int,
                   probe: nat)
    requires IsSearchable(obs, cur, round) && IsSearchedRun(obs, cur, round, lo, hi) && 1 <= lo <= hi <= |obs|
    requires Narrowed(obs, lo, hi, round, left, right, probe) && left > right
    ensures IsSearchResult(obs, cur, round, DEFAULT_OBSERVATION, probe)
  {
    OtherRun(obs, cur, round);
    forall i | 0 <= i < |obs|
      ensures obs[i].round != round
    {
      assert i + 1 == cur || lo <= i + 1 < left || right < i + 1 <= hi || (obs[0].round <= round <==> cur <= i);
    }
  }

  /** The vector after recording `o`: appended until the ring is full, then over the oldest slot. */
  function Inserted(obs: seq<PriceObservation>, cur: nat, o: PriceObservation): seq<PriceObservation>
    requires cur <= |obs|
  {
    if |obs| == MAX_OBSERVATIONS then obs[cur % MAX_OBSERVATIONS := o] else obs + [o]
  }

  lemma InsertKeepsRing(obs: seq<PriceObservation>, cur: nat, o: PriceObservation)
    requires IsRing(obs, cur)
    requires obs != [] ==> obs[cur - 1].round < o.round
    ensures IsRing(Inserted(obs, cur, o), cur % MAX_OBSERVATIONS + 1)
    ensures Inserted(obs, cur, o)[cur % MAX_OBSERVATIONS] == o
  {
    if obs != [] {
      RingOrder(obs, cur);
    }
  }

  lemma InsertKeepsFaithful(obs: seq<PriceObservation>, cur: nat, first: Round, h: seq<Amounts>, r: Round)
    requires IsRing(obs, cur) && obs != [] && Faithful(obs, cur, first, h)
    requires first <= obs[cur - 1].round < r < first + |h| && Flat(first, h, obs[cur - 1].round, r)
    ensures var o := Recorded(first, h, r);
            |Inserted(obs, cur, o)| > cur % MAX_OBSERVATIONS &&
            Faithful(Inserted(obs, cur, o), cur % MAX_OBSERVATIONS + 1, first, h)
  {
    var o := Recorded(first, h, r);
    var obs', cur' := Inserted(obs, cur, o), cur % MAX_OBSERVATIONS + 1;
    forall i, j | 0 <= i < |obs'| && i + 1 != cur' && j == (if i + 1 == |obs'| then 0 else i + 1)
      ensures obs'[i].round < obs'[j].round && Flat(first, h, obs'[i].round, obs'[j].round)
    {
      if j == cur' - 1 {
        assert obs'[i] == obs[cur - 1];
      } else {
        assert obs'[i] == obs[i] && obs'[j] == obs[j];
      }
    }
  }

  lemma FaithfulToLongerHistory(obs: seq<PriceObservation>, cur: nat, first: Round, h: seq<Amounts>, t: seq<Amounts>)
    requires (obs == [] <==> cur == 0) && cur <= |obs| && Faithful(obs, cur, first, h)
    ensures Faithful(obs, cur, first, h + t)
  {
    forall i | 0 <= i < |obs|
      ensures obs[i] == Recorded(first, h + t, obs[i].round)
    {
      AnswersArePermanent(first, h, t, obs[i].round);
    }
  }

  /** A slot other than the newest has its next newer neighbour in the following slot, MAX being followed by 1. */
  lemma NeighbourSlots(obs: seq<PriceObservation>, cur: nat, first: Round, h: seq<Amounts>, slot: nat)
    requires IsRing(obs, cur) && Faithful(obs, cur, first, h)
    requires 1 <= slot <= |obs| && slot != cur && slot % MAX_OBSERVATIONS + 1 <= |obs|
    ensures var left, right := obs[slot - 1], obs[slot % MAX_OBSERVATIONS];
            && first <= left.round < right.round < first + |h|
            && left == Recorded(first, h, left.round) && right == Recorded(first, h, right.round)
            && Flat(first, h, left.round, right.round)
  {
    var j := if slot == |obs| then 0 else slot;
    assert j == slot % MAX_OBSERVATIONS;
  }

  /** The run of slots on the far side of slot 1 cannot hold the searched round. */
  lemma OtherRun(obs: seq<PriceObservation>, cur: nat, round: Round)
    requires IsRing(obs, cur) && obs != []
    ensures obs[0].round <= round ==> forall i :: cur <= i < |obs| ==> obs[i].round < round
    ensures round < obs[0].round ==> forall i :: 0 <= i < cur ==> round < obs[i].round
  {
  }

  /** What every step of the oracle keeps. */
  ghost predicate OracleOk(obs: seq<PriceObservation>, cur: nat, reserves: Amounts, round: Round, first: Round,
                           h: seq<Amounts>) {
    && IsRing(obs, cur)
    && Faithful(obs, cur, first, h)
    && (forall k :: 0 <= k < |h| ==> h[k].Positive())
    && (obs == [] ==> h == [])
    && (obs != [] ==>
          && 1 <= first
          && reserves.Positive()
          && first + |h| == round + 1
          && (forall k :: obs[cur - 1].round - first < k < |h| ==> h[k] == reserves))
  }

  lemma FirstUpdateOk(reserves: Amounts, round: Round)
    requires reserves.Positive() && 0 < round
    ensures var o := ComputeNewObservation(round, reserves, DEFAULT_OBSERVATION);
            o == Recorded(round, [reserves], round) && OracleOk([o], 1, reserves, round, round, [reserves])
  {
    SumConstant([reserves], 0, 1, reserves);
    ScaleStep(reserves, 0);
  }

  lemma NextUpdateOk(obs: seq<PriceObservation>, cur: nat, reserves: Amounts, round: Round, first: Round,
                     h: seq<Amounts>)
    requires OracleOk(obs, cur, reserves, round, first, h) && obs != [] && obs[cur - 1].round < round
    ensures var o := ComputeNewObservation(round, reserves, obs[cur - 1]);
            && o == Recorded(first, h, round)
            && OracleOk(Inserted(obs, cur, o), cur % MAX_OBSERVATIONS + 1, reserves, round, first, h)
  {
    NewObservationIsRecorded(first, h, obs[cur - 1].round, round, reserves);
    InsertKeepsRing(obs, cur, Recorded(first, h, round));
    InsertKeepsFaithful(obs, cur, first, h, round);
  }

  lemma ReservesMayChange(obs: seq<PriceObservation>, cur: nat, reserves: Amounts, round: Round, first: Round,
                          h: seq<Amounts>, after: Amounts)
    requires OracleOk(obs, cur, reserves, round, first, h)
    requires obs != [] ==> obs[cur - 1].round == round && after.Positive()
    ensures OracleOk(obs, cur, after, round, first, h)
  {
  }

  lemma OracleSearchable(obs: seq<PriceObservation>, cur: nat, reserves: Amounts, round: Round, first: Round,
                         h: seq<Amounts>, s: Round)
    requires OracleOk(obs, cur, reserves, round, first, h) && obs != [] && 1 <= OldestIndex(obs, cur) <= |obs|
    requires obs[OldestIndex(obs, cur) - 1].round <= s < obs[cur - 1].round
    ensures IsSearchable(obs, cur, s)
  {
  }

  lemma SlotIsRecorded(obs: seq<PriceObservation>, cur: nat, reserves: Amounts, round: Round, first: Round,
                       h: seq<Amounts>, slot: nat)
    requires OracleOk(obs, cur, reserves, round, first, h) && 1 <= slot <= |obs|
    ensures 1 <= first <= obs[slot - 1].round <= round && IsRecorded(obs[slot - 1], first, h, obs[slot - 1].round)
  {
  }

  lemma OldestHasPassed(obs: seq<PriceObservation>, cur: nat, reserves: Amounts, round: Round, first: Round,
                        h: seq<Amounts>)
    requires OracleOk(obs, cur, reserves, round, first, h)
    ensures obs != [] ==> 1 <= OldestIndex(obs, cur) <= |obs| && obs[OldestIndex(obs, cur) - 1].round <= round
  {
    if obs != [] {
      RingOrder(obs, cur);
      SlotIsRecorded(obs, cur, reserves, round, first, h, cur);
    }
  }

  lemma SimulationIsRecorded(obs: seq<PriceObservation>, cur: nat, reserves: Amounts, round: Round, first: Round,
                             h: seq<Amounts>, s: Round)
    requires OracleOk(obs, cur, reserves, round, first, h) && obs != [] && obs[cur - 1].round < s <= round
    ensures IsRecorded(ComputeNewObservation(s, reserves, obs[cur - 1]), first, h, s)
  {
    NewObservationIsRecorded(first, h, obs[cur - 1].round, s, reserves);
  }

  /** Interpolating across the searched round, on the side the search ended on, gives the running sum. */
  lemma SearchInterpolates(obs: seq<PriceObservation>, cur: nat, reserves: Amounts, round: Round, first: Round,
                           h: seq<Amounts>, slot: nat, s: Round)
    requires OracleOk(obs, cur, reserves, round, first, h)
    requires IsSearchResult(obs, cur, s, DEFAULT_OBSERVATION, slot)
    ensures obs[slot - 1].round < s ==>
              && slot % MAX_OBSERVATIONS < |obs|
              && s < obs[slot % MAX_OBSERVATIONS].round
              && IsRecorded(LinearInterpolation(obs[slot - 1], obs[slot % MAX_OBSERVATIONS], s), first, h, s)
    ensures s < obs[slot - 1].round ==>
              && slot > 1
              && obs[slot - 2].round < s
              && IsRecorded(LinearInterpolation(obs[slot - 2], obs[slot - 1], s), first, h, s)
    ensures s != obs[slot - 1].round
  {
    var leftSlot := if obs[slot - 1].round < s then slot else slot - 1;
    assert obs[slot - 1].round != s;
    NeighbourSlots(obs, cur, first, h, leftSlot);
    InterpolationIsRecorded(first, h, obs[leftSlot - 1].round, s, obs[leftSlot % MAX_OBSERVATIONS].round);
  }
}

/** The oracle as the pair contract stores and queries it. */
module SafePriceView {
  import opened Wrappers
  import opened Arith
  import opened SafePrice

  /** v is what `amount` of one token is worth in the other at the mean reserves of rounds s + 1 .. e. */
  ghost predicate IsSafePrice(v: nat, firstTokenIn: bool, amount: nat, first: Round, h: seq<Amounts>, s: Round,
                              e: Round)
    requires first <= s < e < first + |h|
  {
    exists m ::
      && IsWindowMean(m, first, h, s, e)
      && if firstTokenIn then IsFloor(v, amount * m.second, m.first) else IsFloor(v, amount * m.first, m.second)
  }

  /** The oracle of one pair, with the pair's own storage it reads (reserves and LP supply) and the block round. The
      history is what each round is credited with: for the first recorded round the amounts at its first pool action,
      for every later round the amounts the pool held when that round began. */
  class SafePriceOracle {
    var observations: seq<PriceObservation>
    var currentIndex: nat
    var reserves: Amounts
    var currentRound: Round
    ghost var firstRound: Round
    ghost var history: seq<Amounts>

    ghost predicate Valid()
      reads this
    {
      OracleOk(observations, currentIndex, reserves, currentRound, firstRound, history)
    }

    function Slot(i: nat): PriceObservation
      requires 1 <= i <= |observations|
      reads this
    {
      observations[i - 1]
    }

    ghost function Newest(): PriceObservation
      requires 1 <= currentIndex <= |observations|
      reads this
    {
      Slot(currentIndex)
    }

    function Oldest(): PriceObservation
      requires observations != [] && IsRing(observations, currentIndex)
      reads this
    {
      RingOrder(observations, currentIndex);
      Slot(OldestIndex(observations, currentIndex))
    }

    constructor ()
      ensures Valid() && observations == [] && currentIndex == 0 && reserves == NOTHING && currentRound == 0
    {
      observations, currentIndex, reserves, currentRound := [], 0, NOTHING, 0;
      firstRound, history := 0, [];
    }

    /** Blocks go by; the rounds that begin are credited with what the pool holds. */
    method AdvanceRound(round: Round)
      requires Valid() && currentRound <= round
      modifies this`currentRound, this`history
      ensures Valid() && currentRound == round
      ensures history == if observations == [] then [] else old(history) + Repeat(reserves, round - old(currentRound))
    {
      if observations != [] {
        ghost var rounds := Repeat(reserves, round - currentRound);
        FaithfulToLongerHistory(observations, currentIndex, firstRound, history, rounds);
        history := history + rounds;
      }
      currentRound := round;
    }

    /** One observation a round, made before the round's first pool action changes the reserves. */
    method UpdateSafePrice()
      requires Valid()
      modifies this`observations, this`currentIndex, this`firstRound, this`history
      ensures Valid()
      ensures old(observations) != [] ==> firstRound == old(firstRound) && history == old(history)
      ensures old(observations) == [] && observations != [] ==> firstRound == currentRound && history == [reserves]
      ensures if !reserves.Positive() || currentRound == 0
                 || old(observations != [] && Newest().round == currentRound) then
                observations == old(observations) && currentIndex == old(currentIndex)
              else
                && observations != []
                && observations == Inserted(old(observations), old(currentIndex),
                                            Recorded(firstRound, history, currentRound))
                && currentIndex == old(currentIndex) % MAX_OBSERVATIONS + 1
                && Newest().round == currentRound
    {
      if reserves.first == 0 || reserves.second == 0 || reserves.lp == 0 {
        return;
      }
      assert currentIndex <= MAX_OBSERVATIONS;
      var last := DEFAULT_OBSERVATION;
      var newIndex := 1;
      if observations != [] {
        last := Slot(currentIndex);
        newIndex := currentIndex % MAX_OBSERVATIONS + 1;
      }
      if last.round == currentRound {
        return;
      }
      var observation := ComputeNewObservation(currentRound, reserves, last);
      if observations == [] {
        firstRound, history := currentRound, [reserves];
        FirstUpdateOk(reserves, currentRound);
      } else {
        NextUpdateOk(observations, currentIndex, reserves, currentRound, firstRound, history);
      }
      if |observations| == MAX_OBSERVATIONS {
        observations := observations[newIndex - 1 := observation];
      } else {
        observations := observations + [observation];
      }
      currentIndex := newIndex;
    }

    /** Any pool endpoint: the safe price first, then new reserves. Once liquidity is in, the pool never runs dry
        (LiquidityPool), which is all that is asked of `after`. */
    method PoolAction(after: Amounts)
      requires Valid()
      requires reserves.Positive() ==> after.Positive()
      modifies this`observations, this`currentIndex, this`firstRound, this`history, this`reserves
      ensures Valid() && reserves == after
      ensures old(observations) != [] ==> firstRound == old(firstRound) && history == old(history)
      ensures old(observations) == [] && observations != [] ==>
                firstRound == currentRound && history == [old(reserves)]
                && observations == [Recorded(firstRound, history, currentRound)]
      ensures old(reserves).Positive() && currentRound > 0 ==> observations != [] && Newest().round == currentRound
    {
      UpdateSafePrice();
      ReservesMayChange(observations, currentIndex, reserves, currentRound, firstRound, history, after);
      reserves := after;
    }

    method GetOldestPriceObservation() returns (r: Result<PriceObservation>)
      requires Valid()
      ensures r.Success? <==> observations != []
      ensures r.Success? ==> r.value in observations
      ensures r.Success? ==> forall o :: o in observations ==> r.value.round <= o.round
      ensures r.Success? ==> r.value == Oldest()
    {
      if observations == [] {
        return Failure;
      }
      RingOrder(observations, currentIndex);
      var oldestIndex := 1;
      if |observations| == MAX_OBSERVATIONS {
        oldestIndex := currentIndex % MAX_OBSERVATIONS + 1;
      }
      return Success(Slot(oldestIndex));
    }

    method PriceObservationByBinarySearch(searchRound: Round) returns (observation: PriceObservation, searchIndex: nat)
      requires IsSearchable(observations, currentIndex, searchRound)
      ensures IsSearchResult(observations, currentIndex, searchRound, observation, searchIndex)
    {
      searchIndex := 1;
      var leftIndex, rightIndex;
      if Slot(searchIndex).round <= searchRound {
        leftIndex := searchIndex;
        rightIndex := currentIndex - 1;
      } else {
        leftIndex := currentIndex + 1;
        rightIndex := |observations|;
      }
      ghost var lo: nat, hi: nat := leftIndex, rightIndex;
      SearchStarts(observations, currentIndex, searchRound, lo, hi);

      while leftIndex <= rightIndex
        invariant Narrowed(observations, lo, hi, searchRound, leftIndex, rightIndex, searchIndex)
        decreases rightIndex - leftIndex
      {
        ghost var probe := searchIndex;
        searchIndex := (leftIndex + rightIndex) / 2;
        ProbeNarrows(observations, currentIndex, searchRound, lo, hi, leftIndex, rightIndex, probe, searchIndex);
        var found := Slot(searchIndex);
        if found.round == searchRound {
          return found, searchIndex;
        } else if found.round < searchRound {
          leftIndex := searchIndex + 1;
        } else {
          rightIndex := searchIndex - 1;
        }
      }
      observation := DEFAULT_OBSERVATION;
      SearchEnds(observations, currentIndex, searchRound, lo, hi, leftIndex, rightIndex, searchIndex);
    }

    /** Interpolates between the slot the search ended on and its neighbour across the searched round. */
    method PriceObservationByLinearInterpolation(searchRound: Round, searchIndex: nat) returns (r: PriceObservation)
      requires Valid()
      requires IsSearchResult(observations, currentIndex, searchRound, DEFAULT_OBSERVATION, searchIndex)
      ensures IsRecorded(r, firstRound, history, searchRound)
    {
      SearchInterpolates(observations, currentIndex, reserves, currentRound, firstRound, history, searchIndex,
                         searchRound);
      var found := Slot(searchIndex);
      var left, right;
      if found.round < searchRound {
        left := found;
        right := Slot(searchIndex % MAX_OBSERVATIONS + 1);
      } else {
        var leftIndex := if searchIndex == 1 then MAX_OBSERVATIONS else searchIndex - 1;
        left := Slot(leftIndex);
        right := found;
      }
      r := LinearInterpolation(left, right, searchRound);
    }

    /** Whatever the ring holds and however the round is reached - an exact slot, an interpolation between
        two slots or a simulation from current reserves - the answer is the plain running sum up to that round. */
    method GetPriceObservation(searchRound: Round) returns (r: Result<PriceObservation>)
      requires Valid()
      requires observations != [] ==> Oldest().round <= searchRound
      ensures r.Success? <==> observations != [] && searchRound <= currentRound
      ensures r.Success? ==> IsRecorded(r.value, firstRound, history, searchRound)
    {
      if observations == [] {
        return Failure;
      }
      var last := Slot(currentIndex);
      SlotIsRecorded(observations, currentIndex, reserves, currentRound, firstRound, history, currentIndex);
      if last.round == searchRound {
        return Success(last);
      }
      if last.round < searchRound {
        if searchRound > currentRound {
          return Failure;
        }
        SimulationIsRecorded(observations, currentIndex, reserves, currentRound, firstRound, history, searchRound);
        return Success(ComputeNewObservation(searchRound, reserves, last));
      }
      OracleSearchable(observations, currentIndex, reserves, currentRound, firstRound, history, searchRound);
      var observation := SearchedObservation(searchRound);
      r := Success(observation);
    }

    /** An exact slot, or an interpolation from the slot the search ended on. */
    method SearchedObservation(searchRound: Round) returns (r: PriceObservation)
      requires Valid() && IsSearchable(observations, currentIndex, searchRound)
      ensures IsRecorded(r, firstRound, history, searchRound)
    {
      var observation, index := PriceObservationByBinarySearch(searchRound);
      if observation.round > 0 {
        SlotIsRecorded(observations, currentIndex, reserves, currentRound, firstRound, history, index);
        return observation;
      }
      r := PriceObservationByLinearInterpolation(searchRound, index);
    }

    /** The observations at both ends of a window, and the mean of what lies between them. */
    method GetWeightedAmounts(startRound: Round, endRound: Round) returns (r: Result<Amounts>)
      requires Valid()
      ensures r.Success? <==> observations != [] && Oldest().round <= startRound < endRound <= currentRound
      ensures r.Success? ==>
                && firstRound <= startRound
                && r.value.Positive()
                && IsWindowMean(r.value, firstRound, history, startRound, endRound)
    {
      if endRound <= startRound {
        return Failure;
      }
      var oldest := GetOldestPriceObservation();
      if oldest.Failure? || startRound < oldest.value.round {
        return Failure;
      }
      var first := GetPriceObservation(startRound);
      var last := GetPriceObservation(endRound);
      if first.Failure? || last.Failure? {
        return Failure;
      }
      WeightedAmountsAreMeans(firstRound, history, startRound, endRound);
      r := ComputeWeightedAmounts(first.value, last.value);
      WindowMeanPositive(r.value, firstRound, history, startRound, endRound);
    }

    /** The output worth of an input amount at the window's mean reserves. */
    method GetSafePrice(startRound: Round, endRound: Round, firstTokenIn: bool, amount: nat) returns (r: Result<nat>)
      requires Valid()
      ensures r.Success? <==> observations != [] && Oldest().round <= startRound < endRound <= currentRound
      ensures r.Success? ==>
                && firstRound <= startRound
                && IsSafePrice(r.value, firstTokenIn, amount, firstRound, history, startRound, endRound)
    {
      var weighted := GetWeightedAmounts(startRound, endRound);
      if weighted.Failure? {
        return Failure;
      }
      var reserveIn, reserveOut := weighted.value.first, weighted.value.second;
      if !firstTokenIn {
        reserveIn, reserveOut := weighted.value.second, weighted.value.first;
      }
      FloorOf(amount * reserveOut, reserveIn);
      FloorNat(amount * reserveOut, reserveIn);
      return Success(amount * reserveOut / reserveIn);
    }

    /** The worth of LP tokens, as both reserves' shares at the window's means. The mean LP supply is never zero here,
        so the fallback to the current supply is not reached. */
    method GetLpTokensSafePrice(startRound: Round, endRound: Round, liquidity: nat) returns (r: Result<(nat, nat)>)
      requires Valid()
      ensures r.Success? <==> observations != [] && Oldest().round <= startRound < endRound <= currentRound
      ensures r.Success? ==>
                && firstRound <= startRound
                && exists m ::
                     && IsWindowMean(m, firstRound, history, startRound, endRound)
                     && IsFloor(r.value.0, liquidity * m.first, m.lp)
                     && IsFloor(r.value.1, liquidity * m.second, m.lp)
    {
      var weighted := GetWeightedAmounts(startRound, endRound);
      if weighted.Failure? {
        return Failure;
      }
      var m := weighted.value;
      FloorOf(liquidity * m.first, m.lp);
      FloorOf(liquidity * m.second, m.lp);
      FloorNat(liquidity * m.first, m.lp);
      FloorNat(liquidity * m.second, m.lp);
      return Success((liquidity * m.first / m.lp, liquidity * m.second / m.lp));
    }

    method GetDefaultOffsetRounds(endRound: Round) returns (r: Result<nat>)
      requires Valid()
      requires observations != [] ==> Oldest().round <= endRound
      ensures r.Success? <==> observations != []
      ensures r.Success? ==>
                && r.value <= DEFAULT_SAFE_PRICE_ROUNDS_OFFSET
                && Oldest().round <= endRound - r.value
                && (r.value < DEFAULT_SAFE_PRICE_ROUNDS_OFFSET ==> Oldest().round == endRound - r.value)
    {
      var oldest := GetOldestPriceObservation();
      if oldest.Failure? {
        return Failure;
      }
      var offset := endRound - oldest.value.round;
      if offset > DEFAULT_SAFE_PRICE_ROUNDS_OFFSET {
        offset := DEFAULT_SAFE_PRICE_ROUNDS_OFFSET;
      }
      return Success(offset);
    }

    /** The default window answers as soon as one round has passed since the oldest observation. */
    method GetSafePriceByDefaultOffset(firstTokenIn: bool, amount: nat) returns (r: Result<nat>)
      requires Valid()
      ensures r.Success? <==> observations != [] && Oldest().round < currentRound
      ensures r.Success? ==>
                && var start := if currentRound - Oldest().round > DEFAULT_SAFE_PRICE_ROUNDS_OFFSET
                                then currentRound - DEFAULT_SAFE_PRICE_ROUNDS_OFFSET else Oldest().round;
                   firstRound <= start && IsSafePrice(r.value, firstTokenIn, amount, firstRound, history, start,
                                                      currentRound)
    {
      hide OracleOk, IsSafePrice;
      OldestHasPassed(observations, currentIndex, reserves, currentRound, firstRound, history);
      var offset := GetDefaultOffsetRounds(currentRound);
      if offset.Failure? {
        return Failure;
      }
      r := GetSafePrice(currentRound - offset.value, currentRound, firstTokenIn, amount);
    }
  }
}
