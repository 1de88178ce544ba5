/** common/modules/math */
module Math {
  import opened Arith

  /** The floor of the two-point interpolation; the source reverts outside minIn .. maxIn. */
  function LinearInterpolation(minIn: nat, maxIn: nat, currentIn: nat, minOut: nat, maxOut: nat): nat
    requires minIn <= currentIn <= maxIn && minIn < maxIn
  {
    FloorNat(minOut * (maxIn - currentIn) + maxOut * (currentIn - minIn), maxIn - minIn);
    (minOut * (maxIn - currentIn) + maxOut * (currentIn - minIn)) / (maxIn - minIn)
  }

  function WeightedAverageRoundUp(firstValue: nat, firstWeight: nat, secondValue: nat, secondWeight: nat): nat
    requires firstWeight + secondWeight > 0
  {
    var weightSum := firstWeight + secondWeight;
    FloorNat(firstValue * firstWeight + secondValue * secondWeight + weightSum - 1, weightSum);
    (firstValue * firstWeight + secondValue * secondWeight + weightSum - 1) / weightSum
  }

  lemma InterpolationRises(minIn: nat, maxIn: nat, c: nat, minOut: nat, maxOut: nat)
    requires minIn <= c <= maxIn && minIn < maxIn
    ensures LinearInterpolation(minIn, maxIn, c, minOut, maxOut)
         == minOut + (maxOut - minOut) * (c - minIn) / (maxIn - minIn)
  {
    var n, rise := maxIn - minIn, (maxOut - minOut) * (c - minIn);
    assert minOut * (maxIn - c) + maxOut * (c - minIn) == minOut * n + rise;
    FloorOf(rise, n);
    assert (minOut + rise / n) * n == minOut * n + rise / n * n;
    FloorExact(minOut + rise / n, minOut * n + rise, n);
  }

  lemma RiseEnds(gap: nat, n: nat)
    requires 0 < n
    ensures gap * 0 / n == 0 && gap * n / n == gap
  {
    FloorExact(0, gap * 0, n);
    FloorExact(gap, gap * n, n);
  }

  lemma RiseBelow(gap: nat, x: nat, n: nat)
    requires x < n && 0 < gap
    ensures gap * x / n < gap
  {
    MulLt(x, n, gap);
    FloorGreatest(gap, gap * x, n);
  }

  lemma RiseOrder(gap: nat, x: nat, y: nat, n: nat)
    requires x <= y && 0 < n
    ensures 0 <= gap * x / n <= gap * y / n
  {
    MulLe(x, y, gap);
    MulNat(gap, x);
    FloorNat(gap * x, n);
    FloorMonotone(gap * x, gap * y, n);
  }

  /** The floor of a linear rise from 0 to `gap` over n steps. */
  lemma RiseShape(gap: nat, x: nat, y: nat, n: nat)
    requires x <= y <= n && 0 < n
    ensures 0 <= gap * x / n <= gap * y / n <= gap
    ensures x < n && 0 < gap ==> gap * x / n < gap
    ensures gap * 0 / n == 0 && gap * n / n == gap
  {
    RiseEnds(gap, n);
    RiseOrder(gap, x, y, n);
    RiseOrder(gap, y, n, n);
    if x < n && 0 < gap {
      RiseBelow(gap, x, n);
    }
  }

  /** Interpolating a non-decreasing pair is non-decreasing and stays within the pair; short of the right end of an
      increasing pair it stays strictly below it. */
  lemma InterpolationShape(minIn: nat, maxIn: nat, c: nat, d: nat, minOut: nat, maxOut: nat)
    requires minIn <= c <= d <= maxIn && minIn < maxIn && minOut <= maxOut
    ensures LinearInterpolation(minIn, maxIn, c, minOut, maxOut) <= LinearInterpolation(minIn, maxIn, d, minOut, maxOut)
    ensures minOut <= LinearInterpolation(minIn, maxIn, c, minOut, maxOut) <= maxOut
    ensures c < maxIn && minOut < maxOut ==> LinearInterpolation(minIn, maxIn, c, minOut, maxOut) < maxOut
    ensures LinearInterpolation(minIn, maxIn, minIn, minOut, maxOut) == minOut
    ensures LinearInterpolation(minIn, maxIn, maxIn, minOut, maxOut) == maxOut
  {
    InterpolationRises(minIn, maxIn, c, minOut, maxOut);
    InterpolationRises(minIn, maxIn, d, minOut, maxOut);
    InterpolationRises(minIn, maxIn, minIn, minOut, maxOut);
    InterpolationRises(minIn, maxIn, maxIn, minOut, maxOut);
    RiseShape(maxOut - minOut, c - minIn, d - minIn, maxIn - minIn);
  }

  /** The average is the ceiling of the weighted mean, so it lies between any bounds on both values. */
  lemma AverageIsCeiling(v: nat, w: nat, v': nat, w': nat)
    requires w + w' > 0
    ensures var a := WeightedAverageRoundUp(v, w, v', w');
            v * w + v' * w' <= a * (w + w') < v * w + v' * w' + (w + w')
  {
    var n := w + w';
    var a := WeightedAverageRoundUp(v, w, v', w');
    FloorOf(v * w + v' * w' + n - 1, n);
    assert (a + 1) * n == a * n + n;
  }

  lemma AverageBetween(v: nat, w: nat, v': nat, w': nat, lo: nat, hi: nat)
    requires w + w' > 0 && lo <= v <= hi && lo <= v' <= hi
    ensures lo <= WeightedAverageRoundUp(v, w, v', w') <= hi
  {
    hide WeightedAverageRoundUp;
    var a: int := WeightedAverageRoundUp(v, w, v', w');
    AverageIsCeiling(v, w, v', w');
    WeightedSumBetween(v, w, v', w', lo, hi);
    CeilingBetween(a, v * w + v' * w', w + w', lo, hi);
  }

  lemma CeilingBetween(a: int, total: int, n: int, lo: int, hi: int)
    requires n > 0 && total <= a * n < total + n && lo * n <= total <= hi * n
    ensures lo <= a <= hi
  {
    assert (a - 1) * n == a * n - n;
    LtOfMul(a - 1, hi, n);
    LeOfMul(lo, a, n);
  }

  lemma WeightedSumBetween(v: nat, w: nat, v': nat, w': nat, lo: nat, hi: nat)
    requires lo <= v <= hi && lo <= v' <= hi
    ensures lo * (w + w') <= v * w + v' * w' <= hi * (w + w')
  {
    MulLe(v, hi, w);
    MulLe(v', hi, w');
    MulLe(lo, v, w);
    MulLe(lo, v', w');
  }
}
