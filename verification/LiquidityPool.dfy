/** What liquidity tokens are worth: states of a pool and how they may follow each other. */
module PoolShares {
  import opened Arith
  import opened Amm

  const MINIMUM_LIQUIDITY: nat := 1_000

  datatype Pool = Pool(first: nat, second: nat, supply: nat)

  datatype SwapTokensOrder = PoolOrder | ReverseOrder

  function ReserveIn(p: Pool, order: SwapTokensOrder): nat {
    if order == PoolOrder then p.first else p.second
  }

  function ReserveOut(p: Pool, order: SwapTokensOrder): nat {
    if order == PoolOrder then p.second else p.first
  }

  /** Empty, or with reserves of both tokens behind at least the minimum liquidity. */
  ghost predicate PoolOk(p: Pool) {
    if p.supply == 0 then p.first == 0 == p.second
    else p.supply >= MINIMUM_LIQUIDITY && p.first > 0 && p.second > 0
  }

  /** The reserves behind one liquidity token, by their geometric mean, are no less in q than in p. */
  ghost predicate NotDiluted(p: Pool, q: Pool) {
    q.first * q.second * (p.supply * p.supply) >= p.first * p.second * (q.supply * q.supply)
  }

  lemma ProductsInOrder(a: int, b: int, c: int, d: int)
    requires 0 <= a <= c && 0 <= b <= d
    ensures a * b <= c * d
  {
    MulLe(a, c, b);
    MulLe(b, d, c);
  }

  /** If neither reserve falls behind the supply, no token is diluted. */
  lemma EachSideKept(p: Pool, q: Pool)
    requires q.first * p.supply >= p.first * q.supply
    requires q.second * p.supply >= p.second * q.supply
    ensures NotDiluted(p, q)
  {
    MulNat(p.first, q.supply);
    MulNat(p.second, q.supply);
    ProductsInOrder(p.first * q.supply, p.second * q.supply, q.first * p.supply, q.second * p.supply);
    Regroup(p.first, p.second, q.supply);
    Regroup(q.first, q.second, p.supply);
  }

  lemma Regroup(a: int, b: int, s: int)
    ensures (a * s) * (b * s) == a * b * (s * s)
  {
    assert (a * s) * (b * s) == a * (s * (b * s));
    assert s * (b * s) == b * (s * s);
  }

  /** A product of reserves that does not go down at an unchanged supply dilutes no one. */
  lemma ProductKept(p: Pool, q: Pool)
    requires q.supply == p.supply && q.first * q.second >= p.first * p.second
    ensures NotDiluted(p, q)
  {
    MulNat(p.supply, p.supply);
    MulLe(p.first * p.second, q.first * q.second, p.supply * p.supply);
  }

  lemma NotDilutedTransitive(p: Pool, q: Pool, r: Pool)
    requires NotDiluted(p, q) && NotDiluted(q, r) && q.supply > 0
    ensures NotDiluted(p, r)
  {
    var s, t, u := p.supply * p.supply, q.supply * q.supply, r.supply * r.supply;
    var k, l, m := p.first * p.second, q.first * q.second, r.first * r.second;
    Denominator(q.supply, q.supply);
    MulNat(p.supply, p.supply);
    MulNat(r.supply, r.supply);
    Cancel(k, l, m, s, t, u);
  }

  lemma Cancel(k: int, l: int, m: int, s: int, t: int, u: int)
    requires l * s >= k * t && m * t >= l * u && 0 < t && 0 <= s && 0 <= u
    ensures m * s >= k * u
  {
    MulLe(k * t, l * s, u);
    MulLe(l * u, m * t, s);
    assert l * s * u == l * u * s && k * t * u == k * u * t && m * t * s == m * s * t;
    LeOfMul(k * u, m * s, t);
  }

  /** Any run of a pool: consecutive states never dilute, and a pool once started stays started. */
  ghost predicate IsRun(h: seq<Pool>) {
    && (forall i :: 0 <= i < |h| ==> PoolOk(h[i]))
    && (forall i, j :: 0 <= i < j < |h| && j == i + 1 ==> Follows(h[i], h[j]))
  }

  ghost predicate Follows(p: Pool, q: Pool) {
    NotDiluted(p, q) && (p.supply > 0 ==> q.supply > 0)
  }

  /** Over any run, no liquidity token is ever worth less than it was at any earlier point, and from the initial
      liquidity on the minimum liquidity and both reserves stay. */
  lemma {:induction false} RunKeepsShares(h: seq<Pool>, i: nat, j: nat)
    requires IsRun(h) && i <= j < |h| && h[i].supply > 0
    ensures NotDiluted(h[i], h[j])
    ensures h[j].supply >= MINIMUM_LIQUIDITY && h[j].first > 0 && h[j].second > 0
  {
    hide NotDiluted;
    if i == j {
      ProductKept(h[i], h[i]);
    } else {
      RunKeepsShares(h, i, j - 1);
      assert Follows(h[j - 1], h[j]);
      NotDilutedTransitive(h[i], h[j - 1], h[j]);
    }
  }

  lemma RunGrows(h: seq<Pool>, p: Pool)
    requires IsRun(h) && h != [] && PoolOk(p) && Follows(h[|h| - 1], p)
    ensures IsRun(h + [p])
  {
    hide NotDiluted, PoolOk, Follows;
  }

  // ---- Adding and removing liquidity ----

  /** The liquidity a payment earns is the largest that costs the present owners nothing, on either side. */
  ghost predicate EarnsAtMost(l: int, p: Pool, first: nat, second: nat) {
    l * p.first <= first * p.supply && l * p.second <= second * p.supply
  }

  lemma AddingKeepsShares(p: Pool, first: nat, second: nat, l: nat)
    requires EarnsAtMost(l, p, first, second)
    ensures NotDiluted(p, Pool(p.first + first, p.second + second, p.supply + l))
  {
    EachSideKept(p, Pool(p.first + first, p.second + second, p.supply + l));
  }

  lemma RemovingKeepsShares(p: Pool, first: nat, second: nat, l: nat)
    requires l <= p.supply && first <= p.first && second <= p.second
    requires first * p.supply <= l * p.first && second * p.supply <= l * p.second
    ensures NotDiluted(p, Pool(p.first - first, p.second - second, p.supply - l))
  {
    EachSideKept(p, Pool(p.first - first, p.second - second, p.supply - l));
  }

  /** What `l` liquidity tokens redeem for. */
  function Share(l: nat, reserve: nat, supply: nat): nat
    requires supply > 0
  {
    FloorNat(l * reserve, supply);
    l * reserve / supply
  }

  lemma ShareIs(l: nat, reserve: nat, supply: nat)
    requires supply > 0
    ensures IsFloor(Share(l, reserve, supply), l * reserve, supply)
  {
    FloorOf(l * reserve, supply);
  }

  lemma ShareBelow(l: nat, reserve: nat, supply: nat)
    requires 0 < reserve && l < supply
    ensures Share(l, reserve, supply) < reserve && Share(l, reserve, supply) * supply <= l * reserve
  {
    FloorOf(l * reserve, supply);
    MulLt(l, supply, reserve);
    LtOfMul(Share(l, reserve, supply), reserve, supply);
  }

  ghost predicate CanRemove(p: Pool, lpAmount: nat, firstMin: nat, secondMin: nat) {
    && p.supply >= lpAmount + MINIMUM_LIQUIDITY
    && 0 < Share(lpAmount, p.first, p.supply) && firstMin <= Share(lpAmount, p.first, p.supply)
    && 0 < Share(lpAmount, p.second, p.supply) && secondMin <= Share(lpAmount, p.second, p.supply)
  }

  ghost function AfterRemove(p: Pool, lpAmount: nat): Pool
    requires PoolOk(p) && p.supply >= lpAmount + MINIMUM_LIQUIDITY
  {
    ShareBelow(lpAmount, p.first, p.supply);
    ShareBelow(lpAmount, p.second, p.supply);
    Pool(p.first - Share(lpAmount, p.first, p.supply), p.second - Share(lpAmount, p.second, p.supply),
         p.supply - lpAmount)
  }

  /** As long as the minimum liquidity stays, the reserves always exceed what is removed. */
  lemma RemovalKeepsShares(p: Pool, lpAmount: nat)
    requires PoolOk(p) && p.supply >= lpAmount + MINIMUM_LIQUIDITY
    ensures Share(lpAmount, p.first, p.supply) < p.first && Share(lpAmount, p.second, p.supply) < p.second
    ensures var q := AfterRemove(p, lpAmount);
            PoolOk(q) && Follows(p, q) && q.supply > 0
  {
    hide Share, NotDiluted;
    ShareBelow(lpAmount, p.first, p.supply);
    ShareBelow(lpAmount, p.second, p.supply);
    RemovingKeepsShares(p, Share(lpAmount, p.first, p.supply), Share(lpAmount, p.second, p.supply), lpAmount);
  }

  /** Removing right away what was just added never returns more of either token than was put in. */
  lemma AddThenRemove(p: Pool, first: nat, second: nat, l: nat)
    requires EarnsAtMost(l, p, first, second) && p.supply + l > 0
    ensures Share(l, p.first + first, p.supply + l) <= first
    ensures Share(l, p.second + second, p.supply + l) <= second
  {
    ShareOfAdded(l, p.first, first, p.supply);
    ShareOfAdded(l, p.second, second, p.supply);
  }

  lemma ShareOfAdded(l: nat, reserve: nat, added: nat, supply: nat)
    requires l * reserve <= added * supply && supply + l > 0
    ensures Share(l, reserve + added, supply + l) <= added
  {
    FloorOf(l * (reserve + added), supply + l);
    assert l * (reserve + added) <= added * (supply + l);
    LeOfMul(Share(l, reserve + added, supply + l), added, supply + l);
  }

  /** The amounts taken of what was desired: all of one token, and its value in the other. */
  function OptimalAmounts(p: Pool, first: nat, second: nat): (r: (nat, nat))
    requires p.supply > 0 ==> p.first > 0 && p.second > 0
    ensures r.0 <= first && r.1 <= second && (r.0 == first || r.1 == second)
    ensures p.supply == 0 ==> r == (first, second)
    ensures p.supply > 0 ==>
              if first * p.second < (second + 1) * p.first then IsFloor(r.1, first * p.second, p.first) && r.0 == first
              else IsFloor(r.0, second * p.first, p.second) && r.1 == second
  {
    if p.supply == 0 then
      (first, second)
    else
      var secondOptimal := Quote(first, p.first, p.second);
      FloorOf(first * p.second, p.first);
      FloorGreatest(second + 1, first * p.second, p.first);
      if secondOptimal <= second then
        (first, secondOptimal)
      else
        QuoteBack(first, second, p.first, p.second);
        FloorOf(second * p.first, p.second);
        (Quote(second, p.second, p.first), second)
  }

  /** Of the two quotes one always fits, so asking for more than was paid cannot happen. */
  lemma QuoteBack(first: nat, second: nat, firstReserve: nat, secondReserve: nat)
    requires firstReserve > 0 && secondReserve > 0 && second < Quote(first, firstReserve, secondReserve)
    ensures Quote(second, secondReserve, firstReserve) <= first
  {
    FloorGreatest(second, first * secondReserve, firstReserve);
    FloorOf(second * firstReserve, secondReserve);
    LeOfMul(Quote(second, secondReserve, firstReserve), first, secondReserve);
  }

  // ---- Swaps ----

  function Swapped(p: Pool, order: SwapTokensOrder, added: nat, taken: nat): Pool
    requires taken <= ReserveOut(p, order)
  {
    if order == PoolOrder then Pool(p.first + added, p.second - taken, p.supply)
    else Pool(p.first - taken, p.second + added, p.supply)
  }

  lemma SwappedKeepsShares(p: Pool, order: SwapTokensOrder, added: nat, taken: nat)
    requires PoolOk(p) && p.supply > 0 && taken < ReserveOut(p, order)
    requires (ReserveIn(p, order) + added) * (ReserveOut(p, order) - taken)
          >= ReserveIn(p, order) * ReserveOut(p, order)
    ensures PoolOk(Swapped(p, order, added, taken)) && Follows(p, Swapped(p, order, added, taken))
  {
    hide NotDiluted;
    ProductKept(p, Swapped(p, order, added, taken));
  }

  /** A swap at a price, with the special fee withheld from the input. */
  lemma PaidSwapKeepsShares(p: Pool, order: SwapTokensOrder, x: nat, y: nat, withheld: nat, special: nat, total: nat)
    requires PoolOk(p) && p.supply > 0 && special <= total <= MAX_PERCENTAGE
    requires y < ReserveOut(p, order) && y <= GetAmountOut(x, ReserveIn(p, order), ReserveOut(p, order), total)
    requires withheld <= GetSpecialFeeFromInput(x, special)
    ensures var q := Swapped(p, order, x - withheld, y);
            PoolOk(q) && Follows(p, q)
  {
    hide GetAmountOut, GetSpecialFeeFromInput, NotDiluted, Swapped, Follows;
    var ri, ro := ReserveIn(p, order), ReserveOut(p, order);
    SwapKeepsProduct(x, y, ri, ro, special, total);
    MulLe(ri + x - GetSpecialFeeFromInput(x, special), ri + x - withheld, ro - y);
    SwappedKeepsShares(p, order, x - withheld, y);
  }

  /** The swap without a fee, as it is used for the fee slices and between pairs. */
  ghost predicate CanSwapNoFee(p: Pool, order: SwapTokensOrder, amountIn: nat) {
    && ReserveIn(p, order) > 0
    && 0 < GetAmountOutNoFee(amountIn, ReserveIn(p, order), ReserveOut(p, order)) < ReserveOut(p, order)
  }

  ghost function AfterSwapNoFee(p: Pool, order: SwapTokensOrder, amountIn: nat): Pool
    requires CanSwapNoFee(p, order, amountIn)
  {
    Swapped(p, order, amountIn, GetAmountOutNoFee(amountIn, ReserveIn(p, order), ReserveOut(p, order)))
  }

  lemma SwapNoFeeKeepsShares(p: Pool, order: SwapTokensOrder, amountIn: nat)
    requires PoolOk(p) && CanSwapNoFee(p, order, amountIn)
    ensures var q := AfterSwapNoFee(p, order, amountIn);
            PoolOk(q) && Follows(p, q)
  {
    hide GetAmountOut, GetAmountOutNoFee, NotDiluted, Swapped, Follows;
    var ri, ro := ReserveIn(p, order), ReserveOut(p, order);
    NoFeeIsZeroFee(amountIn, ri, ro);
    PaidSwapKeepsShares(p, order, amountIn, GetAmountOutNoFee(amountIn, ri, ro), 0, 0, 0);
  }

  lemma FollowsTransitive(p: Pool, q: Pool, r: Pool)
    requires Follows(p, q) && Follows(q, r) && q.supply > 0
    ensures Follows(p, r)
  {
    hide NotDiluted;
    NotDilutedTransitive(p, q, r);
  }

  /** How a fee slice reaches the token its destination asks for, or that another pair refuses to swap it. */
  datatype Route = Direct | Local | Extern | ExternAfterLocal | Refused | NoRoute

  ghost function AfterSlice(p: Pool, order: SwapTokensOrder, slice: nat, route: Route): (r: Pool)
    requires route != NoRoute && route != Refused
    requires (route == Local || route == ExternAfterLocal ==> CanSwapNoFee(p, order, slice))
  {
    if route == Local || route == ExternAfterLocal then AfterSwapNoFee(p, order, slice) else p
  }

  ghost predicate CanSendSlice(p: Pool, order: SwapTokensOrder, slice: nat, route: Route) {
    route != NoRoute && route != Refused
    && (route == Local || route == ExternAfterLocal ==> CanSwapNoFee(p, order, slice))
  }

  /** The slices go out one after the other, each from the reserves the one before left. */
  ghost predicate CanSendSlices(p: Pool, order: SwapTokensOrder, slice: nat, routes: seq<Route>)
    decreases |routes|
  {
    routes == [] ||
    (CanSendSlice(p, order, slice, routes[0])
     && CanSendSlices(AfterSlice(p, order, slice, routes[0]), order, slice, routes[1..]))
  }

  ghost function AfterSlices(p: Pool, order: SwapTokensOrder, slice: nat, routes: seq<Route>): Pool
    requires CanSendSlices(p, order, slice, routes)
    decreases |routes|
  {
    if routes == [] then p else AfterSlices(AfterSlice(p, order, slice, routes[0]), order, slice, routes[1..])
  }

  /** Feeding slices of the fee back through the pool dilutes no one. */
  lemma {:induction false} SlicesKeepShares(p: Pool, order: SwapTokensOrder, slice: nat, routes: seq<Route>)
    requires PoolOk(p) && p.supply > 0 && CanSendSlices(p, order, slice, routes)
    ensures var q := AfterSlices(p, order, slice, routes);
            PoolOk(q) && q.supply > 0 && Follows(p, q)
    decreases |routes|
  {
    hide NotDiluted, PoolOk, CanSwapNoFee, AfterSwapNoFee;
    if routes == [] {
      ProductKept(p, p);
    } else {
      var q := AfterSlice(p, order, slice, routes[0]);
      if routes[0] == Local || routes[0] == ExternAfterLocal {
        SwapNoFeeKeepsShares(p, order, slice);
      } else {
        ProductKept(p, p);
      }
      SlicesKeepShares(q, order, slice, routes[1..]);
      FollowsTransitive(p, q, AfterSlices(q, order, slice, routes[1..]));
    }
  }
}
