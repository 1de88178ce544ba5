/** dex/pair/src/amm.rs: the pricing of a constant product pair. */
module Amm {
  import opened Arith

  const MAX_PERCENTAGE: nat := 100_000

  /** The value of an amount of one token in the other, at the price of the reserves. */
  function Quote(firstTokenAmount: nat, firstTokenReserve: nat, secondTokenReserve: nat): nat
    requires firstTokenReserve > 0
  {
    FloorNat(firstTokenAmount * secondTokenReserve, firstTokenReserve);
    firstTokenAmount * secondTokenReserve / firstTokenReserve
  }

  function GetAmountOutNoFee(amountIn: nat, reserveIn: nat, reserveOut: nat): nat
    requires reserveIn > 0
  {
    FloorNat(amountIn * reserveOut, reserveIn + amountIn);
    amountIn * reserveOut / (reserveIn + amountIn)
  }

  function GetAmountOut(amountIn: nat, reserveIn: nat, reserveOut: nat, totalFeePercent: nat): nat
    requires reserveIn > 0 && totalFeePercent <= MAX_PERCENTAGE
  {
    MulNat(amountIn, MAX_PERCENTAGE - totalFeePercent);
    var amountInWithFee: nat := amountIn * (MAX_PERCENTAGE - totalFeePercent);
    FloorNat(amountInWithFee * reserveOut, reserveIn * MAX_PERCENTAGE + amountInWithFee);
    amountInWithFee * reserveOut / (reserveIn * MAX_PERCENTAGE + amountInWithFee)
  }

  function GetAmountIn(amountOut: nat, reserveIn: nat, reserveOut: nat, totalFeePercent: nat): nat
    requires amountOut < reserveOut && totalFeePercent < MAX_PERCENTAGE
  {
    Denominator(reserveOut - amountOut, MAX_PERCENTAGE - totalFeePercent);
    MulNat(reserveIn, amountOut);
    FloorNat(reserveIn * amountOut * MAX_PERCENTAGE, (reserveOut - amountOut) * (MAX_PERCENTAGE - totalFeePercent));
    reserveIn * amountOut * MAX_PERCENTAGE / ((reserveOut - amountOut) * (MAX_PERCENTAGE - totalFeePercent)) + 1
  }

  lemma Denominator(a: int, b: int)
    requires 0 < a && 0 < b
    ensures 0 < a * b
  {
    MulLt(0, a, b);
  }

  function GetSpecialFeeFromInput(amountIn: nat, specialFeePercent: nat): (r: nat)
    requires specialFeePercent <= MAX_PERCENTAGE
    ensures r <= amountIn
  {
    FloorNat(amountIn * specialFeePercent, MAX_PERCENTAGE);
    SpecialFeeFloor(amountIn, specialFeePercent);
    amountIn * specialFeePercent / MAX_PERCENTAGE
  }

  lemma SpecialFeeFloor(amountIn: nat, specialFeePercent: nat)
    requires specialFeePercent <= MAX_PERCENTAGE
    ensures var s := amountIn * specialFeePercent / MAX_PERCENTAGE;
            s <= amountIn && IsFloor(s, amountIn * specialFeePercent, MAX_PERCENTAGE)
  {
    var s := amountIn * specialFeePercent / MAX_PERCENTAGE;
    FloorOf(amountIn * specialFeePercent, MAX_PERCENTAGE);
    MulLe(specialFeePercent, MAX_PERCENTAGE, amountIn);
    LeOfMul(s, amountIn, MAX_PERCENTAGE);
  }

  // ---- What a swap pays ----

  /** The input that counts for the price, in units of a MAX_PERCENTAGE-th of a token. */
  ghost function Counted(amountIn: nat, totalFeePercent: nat): (r: nat)
    requires totalFeePercent <= MAX_PERCENTAGE
  {
    MulNat(amountIn, MAX_PERCENTAGE - totalFeePercent);
    amountIn * (MAX_PERCENTAGE - totalFeePercent)
  }

  /** Paying out y for the counted input w does not lower the product of the reserves. */
  ghost predicate KeepsProduct(y: int, w: int, reserveIn: int, reserveOut: int) {
    (reserveIn * MAX_PERCENTAGE + w) * (reserveOut - y) >= reserveIn * MAX_PERCENTAGE * reserveOut
  }

  lemma PaysAtMost(y: int, w: int, ri: int, ro: int)
    ensures KeepsProduct(y, w, ri, ro) <==> y * (ri * MAX_PERCENTAGE + w) <= w * ro
    ensures KeepsProduct(y, w, ri, ro) <==> ri * y * MAX_PERCENTAGE <= w * (ro - y)
  {
    var m := ri * MAX_PERCENTAGE;
    assert (m + w) * (ro - y) == m * ro + w * ro - y * (m + w);
    assert y * (m + w) == y * m + w * y;
    assert y * m == ri * y * MAX_PERCENTAGE;
    assert w * (ro - y) == w * ro - w * y;
  }

  /** A fixed input buys the greatest amount that keeps the product. */
  lemma AmountOutIsGreatest(amountIn: nat, reserveIn: nat, reserveOut: nat, totalFeePercent: nat, y: nat)
    requires reserveIn > 0 && totalFeePercent <= MAX_PERCENTAGE
    ensures y <= GetAmountOut(amountIn, reserveIn, reserveOut, totalFeePercent)
       <==> KeepsProduct(y, Counted(amountIn, totalFeePercent), reserveIn, reserveOut)
  {
    var w: int := Counted(amountIn, totalFeePercent);
    PaysAtMost(y, w, reserveIn, reserveOut);
    FloorGreatest(y, w * reserveOut, reserveIn * MAX_PERCENTAGE + w);
  }

  /** ... and never the whole reserve, so the check against it never fires. */
  lemma AmountOutBelowReserve(amountIn: nat, reserveIn: nat, reserveOut: nat, totalFeePercent: nat)
    requires reserveIn > 0 && reserveOut > 0 && totalFeePercent <= MAX_PERCENTAGE
    ensures GetAmountOut(amountIn, reserveIn, reserveOut, totalFeePercent) < reserveOut
  {
    AmountOutIsGreatest(amountIn, reserveIn, reserveOut, totalFeePercent, reserveOut);
    Denominator(reserveIn * MAX_PERCENTAGE, reserveOut);
    assert (reserveIn * MAX_PERCENTAGE + Counted(amountIn, totalFeePercent)) * (reserveOut - reserveOut) == 0;
  }

  /** Swapping without a fee is swapping at a fee of zero. */
  lemma NoFeeIsZeroFee(amountIn: nat, reserveIn: nat, reserveOut: nat)
    requires reserveIn > 0
    ensures GetAmountOutNoFee(amountIn, reserveIn, reserveOut) == GetAmountOut(amountIn, reserveIn, reserveOut, 0)
  {
    var y, n, d: int := GetAmountOutNoFee(amountIn, reserveIn, reserveOut), amountIn * reserveOut, reserveIn + amountIn;
    var m := MAX_PERCENTAGE;
    FloorOf(n, d);
    assert amountIn * (m - 0) * reserveOut == m * n && reserveIn * m + amountIn * (m - 0) == m * d;
    assert y * (m * d) == m * (y * d) && (y + 1) * (m * d) == m * ((y + 1) * d);
    FloorExact(y, m * n, m * d);
  }

  /** The special fee never takes more than what the total fee leaves out of the price. */
  lemma AfterSpecialFee(x: nat, special: nat, total: nat)
    requires special <= total <= MAX_PERCENTAGE
    ensures Counted(x, total) <= (x - GetSpecialFeeFromInput(x, special)) * MAX_PERCENTAGE
  {
    SpecialFeeFloor(x, special);
    MulLe(special, total, x);
    assert x * (MAX_PERCENTAGE - total) == x * MAX_PERCENTAGE - x * total;
  }

  /** Whatever a swap pays up to the price, the product of the reserves does not go down, even with the special fee
      withheld from the input. */
  lemma SwapKeepsProduct(x: nat, y: nat, ri: nat, ro: nat, special: nat, total: nat)
    requires ri > 0 && special <= total <= MAX_PERCENTAGE
    requires y <= ro && y <= GetAmountOut(x, ri, ro, total)
    ensures (ri + x - GetSpecialFeeFromInput(x, special)) * (ro - y) >= ri * ro
  {
    hide GetAmountOut, GetSpecialFeeFromInput, Counted;
    var m, w := MAX_PERCENTAGE, Counted(x, total);
    var kept: int := ri + x - GetSpecialFeeFromInput(x, special);
    AmountOutIsGreatest(x, ri, ro, total, y);
    AfterSpecialFee(x, special, total);
    MulLe(ri * m + w, kept * m, ro - y);
    assert kept * m * (ro - y) == kept * (ro - y) * m && ri * m * ro == ri * ro * m;
    LeOfMul(ri * ro, kept * (ro - y), m);
  }

  // ---- Fixed output against fixed input ----

  /** An input suffices for an output iff it covers the exact quotient. */
  lemma SufficientInput(x: nat, y: nat, ri: nat, ro: nat, total: nat)
    requires ri > 0 && y < ro && total < MAX_PERCENTAGE
    ensures y <= GetAmountOut(x, ri, ro, total) <==>
              ri * y * MAX_PERCENTAGE <= x * ((ro - y) * (MAX_PERCENTAGE - total))
  {
    hide GetAmountOut;
    AmountOutIsGreatest(x, ri, ro, total, y);
    PaysAtMost(y, Counted(x, total), ri, ro);
    assert x * (MAX_PERCENTAGE - total) * (ro - y) == x * ((ro - y) * (MAX_PERCENTAGE - total));
  }

  /** The input asked for an output suffices for it, and exceeds the least sufficient input by at most one. */
  lemma AmountInSuffices(y: nat, ri: nat, ro: nat, total: nat)
    requires ri > 0 && y < ro && total < MAX_PERCENTAGE
    ensures y <= GetAmountOut(GetAmountIn(y, ri, ro, total), ri, ro, total)
    ensures forall x: nat :: y <= GetAmountOut(x, ri, ro, total) ==> GetAmountIn(y, ri, ro, total) <= x + 1
  {
    hide GetAmountOut;
    var n, d := ri * y * MAX_PERCENTAGE, (ro - y) * (MAX_PERCENTAGE - total);
    Denominator(ro - y, MAX_PERCENTAGE - total);
    FloorOf(n, d);
    SufficientInput(GetAmountIn(y, ri, ro, total), y, ri, ro, total);
    forall x: nat | y <= GetAmountOut(x, ri, ro, total)
      ensures GetAmountIn(y, ri, ro, total) <= x + 1
    {
      SufficientInput(x, y, ri, ro, total);
      LtOfMul(n / d, x + 1, d);
    }
  }

  /** It asks one too many exactly when the quotient comes out even. */
  lemma AmountInIsLeast(y: nat, ri: nat, ro: nat, total: nat)
    requires ri > 0 && y < ro && total < MAX_PERCENTAGE
    ensures y <= GetAmountOut(GetAmountIn(y, ri, ro, total) - 1, ri, ro, total)
       <==> ri * y * MAX_PERCENTAGE % ((ro - y) * (MAX_PERCENTAGE - total)) == 0
  {
    hide GetAmountOut;
    var n, d := ri * y * MAX_PERCENTAGE, (ro - y) * (MAX_PERCENTAGE - total);
    Denominator(ro - y, MAX_PERCENTAGE - total);
    SufficientInput(GetAmountIn(y, ri, ro, total) - 1, y, ri, ro, total);
    assert n == n / d * d + n % d;
  }

  /** Reserves a pair can start with where it does: for one token out, two are asked where one suffices. */
  lemma AmountInAsksTooMuch()
    ensures GetAmountIn(1, 99_700, 100_001, 300) == 2
    ensures GetAmountOut(1, 99_700, 100_001, 300) == 1
  {
  }

  /** Asking for what an input buys costs at most one unit more than that input. */
  lemma InputOfOutput(a: nat, ri: nat, ro: nat, total: nat)
    requires ri > 0 && ro > 0 && total < MAX_PERCENTAGE
    ensures GetAmountOut(a, ri, ro, total) < ro
    ensures GetAmountIn(GetAmountOut(a, ri, ro, total), ri, ro, total) <= a + 1
  {
    hide GetAmountOut, GetAmountIn;
    AmountOutBelowReserve(a, ri, ro, total);
    AmountInSuffices(GetAmountOut(a, ri, ro, total), ri, ro, total);
  }

  // ---- Trades in several steps ----

  lemma ChainedRatios(m: int, c: int, e: int, i: int, j: int, ro: int, r1: int, r2: int)
    requires 0 <= c && 0 < i && 0 <= r2
    requires c * r1 >= m * ro && j * r2 >= i * r1 && i * e >= c * j
    ensures e * r2 >= m * ro
  {
    MulLe(c * j, i * e, r2);
    MulLe(i * r1, j * r2, c);
    MulLe(m * ro, c * r1, i);
    assert i * e * r2 == e * r2 * i;
    assert c * j * r2 == j * r2 * c;
    assert c * r1 * i == i * r1 * c;
    LeOfMul(m * ro, e * r2, i);
  }

  lemma SplitStep(m: int, w: int, v: int, i: int, ro: int, r1: int, r2: int)
    requires 0 < m && 0 <= w && 0 <= v && m + w <= i && 0 <= r1
    requires (m + w) * r1 >= m * ro
    requires (i + v) * r2 >= i * r1
    ensures (m + w + v) * r2 >= m * ro
  {
    MulLe(0, i, r1);
    if r2 < 0 {
      MulLt(r2, 0, i + v);
      assert false;
    }
    MulLe(0, i - (m + w), v);
    assert i * (m + w + v) - (m + w) * (i + v) == (i - (m + w)) * v;
    ChainedRatios(m, m + w, m + w + v, i, i + v, ro, r1, r2);
  }

  /** Splitting an input into two swaps never buys more than swapping it at once. */
  lemma SplittingNeverPays(x: nat, x': nat, ri: nat, ro: nat, special: nat, total: nat)
    requires ri > 0 && special <= total <= MAX_PERCENTAGE && ro > 0
    ensures var y := GetAmountOut(x, ri, ro, total);
            var ri' := ri + x - GetSpecialFeeFromInput(x, special);
            y < ro && y + GetAmountOut(x', ri', ro - y, total) <= GetAmountOut(x + x', ri, ro, total)
  {
    hide GetAmountOut, GetSpecialFeeFromInput, Counted, KeepsProduct;
    AmountOutBelowReserve(x, ri, ro, total);
    var y := GetAmountOut(x, ri, ro, total);
    var ri' := ri + x - GetSpecialFeeFromInput(x, special);
    var y' := GetAmountOut(x', ri', ro - y, total);
    AmountOutIsGreatest(x, ri, ro, total, y);
    AmountOutIsGreatest(x', ri', ro - y, total, y');
    AmountOutIsGreatest(x + x', ri, ro, total, y + y');
    AfterSpecialFee(x, special, total);
    CountedAdds(x, x', total);
    SplitStepCounted(Counted(x, total), Counted(x', total), ri, ri', ro, y, y');
  }

  lemma CountedAdds(x: nat, x': nat, total: nat)
    requires total <= MAX_PERCENTAGE
    ensures Counted(x + x', total) == Counted(x, total) + Counted(x', total)
  {
  }

  lemma SplitStepCounted(w: nat, w': nat, ri: nat, ri': nat, ro: nat, y: nat, y': nat)
    requires 0 < ri && y <= ro && w <= (ri' - ri) * MAX_PERCENTAGE
    requires KeepsProduct(y, w, ri, ro) && KeepsProduct(y', w', ri', ro - y)
    ensures KeepsProduct(y + y', w + w', ri, ro)
  {
    SplitStep(ri * MAX_PERCENTAGE, w, w', ri' * MAX_PERCENTAGE, ro, ro - y, ro - y - y');
  }

  /** Trading there and back never returns more than was put in. */
  lemma ThereAndBack(x: nat, ri: nat, ro: nat, special: nat, total: nat)
    requires ri > 0 && ro > 0 && special <= total <= MAX_PERCENTAGE
    ensures var y := GetAmountOut(x, ri, ro, total);
            var ri' := ri + x - GetSpecialFeeFromInput(x, special);
            y < ro && GetAmountOut(y, ro - y, ri', total) <= x
  {
    hide GetAmountOut, GetSpecialFeeFromInput;
    var y := GetAmountOut(x, ri, ro, total);
    var ri' := ri + x - GetSpecialFeeFromInput(x, special);
    AmountOutBelowReserve(x, ri, ro, total);
    AmountOutBelowReserve(y, ro - y, ri', total);
    var x' := GetAmountOut(y, ro - y, ri', total);
    SwapKeepsProduct(x, y, ri, ro, special, total);
    SwapKeepsProduct(y, x', ro - y, ri', special, total);
    var ro': int := ro - GetSpecialFeeFromInput(y, special);
    var left: int := ri' - x';
    assert ro' * left >= (ro - y) * ri';
    if x' > x {
      MulLe(ro', ro, left);
      MulLt(left, ri, ro);
      assert false;
    }
  }
}
