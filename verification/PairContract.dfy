/** The pair contract: liquidity_pool.rs, fee.rs and the endpoints that compose them. */
module PairContract {
  import opened Chain
  import opened Wrappers
  import opened Arith
  import opened Amm
  import opened PoolShares

  type TokenId = nat

  const MAX_FEE_PERCENTAGE: nat := 5_000

  /** Loaded when an endpoint starts and written back when it ends; a revert drops it. */
  class StorageCache {
    var firstTokenReserve: nat
    var secondTokenReserve: nat
    var lpTokenSupply: nat

    function Pool(): Pool
      reads this
    {
      PoolShares.Pool(firstTokenReserve, secondTokenReserve, lpTokenSupply)
    }

    constructor (p: Pool)
      ensures Pool() == p
    {
      firstTokenReserve, secondTokenReserve, lpTokenSupply := p.first, p.second, p.supply;
    }

    method SwapReserves(order: SwapTokensOrder, added: nat, taken: nat)
      requires taken <= ReserveOut(Pool(), order)
      modifies this
      ensures Pool() == Swapped(old(Pool()), order, added, taken)
    {
      if order == PoolOrder {
        firstTokenReserve, secondTokenReserve := firstTokenReserve + added, secondTokenReserve - taken;
      } else {
        firstTokenReserve, secondTokenReserve := firstTokenReserve - taken, secondTokenReserve + added;
      }
    }
  }

  // ---- Liquidity ----

  /** The largest liquidity that costs the present owners nothing. */
  method PoolAddLiquidity(cache: StorageCache, first: nat, second: nat) returns (r: Result<nat>)
    requires PoolOk(cache.Pool()) && cache.lpTokenSupply > 0
    modifies cache
    ensures r.Success? <==> EarnsAtMost(1, old(cache.Pool()), first, second)
    ensures r.Success? ==>
              && cache.Pool() == Pool(old(cache.firstTokenReserve) + first, old(cache.secondTokenReserve) + second,
                                      old(cache.lpTokenSupply) + r.value)
              && (forall l: int :: l <= r.value <==> EarnsAtMost(l, old(cache.Pool()), first, second))
  {
    var firstPotential := Share(first, cache.lpTokenSupply, cache.firstTokenReserve);
    var secondPotential := Share(second, cache.lpTokenSupply, cache.secondTokenReserve);
    var liquidity := if firstPotential <= secondPotential then firstPotential else secondPotential;
    forall l: int
      ensures l <= liquidity <==> EarnsAtMost(l, cache.Pool(), first, second)
    {
      FloorGreatest(l, first * cache.lpTokenSupply, cache.firstTokenReserve);
      FloorGreatest(l, second * cache.lpTokenSupply, cache.secondTokenReserve);
    }
    if liquidity == 0 {
      return Failure;
    }
    cache.lpTokenSupply := cache.lpTokenSupply + liquidity;
    cache.firstTokenReserve := cache.firstTokenReserve + first;
    cache.secondTokenReserve := cache.secondTokenReserve + second;
    return Success(liquidity);
  }

  /** The first liquidity is the smaller amount; the minimum stays with the contract for good. */
  method PoolAddInitialLiquidity(cache: StorageCache, first: nat, second: nat) returns (r: Result<nat>)
    requires cache.Pool() == Pool(0, 0, 0)
    modifies cache
    ensures r.Success? <==> first > MINIMUM_LIQUIDITY && second > MINIMUM_LIQUIDITY
    ensures r.Success? ==>
              && cache.Pool() == Pool(first, second, r.value + MINIMUM_LIQUIDITY)
              && r.value + MINIMUM_LIQUIDITY <= first && r.value + MINIMUM_LIQUIDITY <= second
              && (r.value + MINIMUM_LIQUIDITY == first || r.value + MINIMUM_LIQUIDITY == second)
              && PoolOk(cache.Pool())
  {
    var liquidity := if first <= second then first else second;
    if liquidity <= MINIMUM_LIQUIDITY {
      return Failure;
    }
    cache.lpTokenSupply := liquidity;
    cache.firstTokenReserve := cache.firstTokenReserve + first;
    cache.secondTokenReserve := cache.secondTokenReserve + second;
    return Success(liquidity - MINIMUM_LIQUIDITY);
  }

  method PoolRemoveLiquidity(cache: StorageCache, lpAmount: nat, firstMin: nat,
                             secondMin: nat) returns (r: Result<(nat, nat)>)
    requires PoolOk(cache.Pool()) && lpAmount > 0
    modifies cache
    ensures r.Success? <==> CanRemove(old(cache.Pool()), lpAmount, firstMin, secondMin)
    ensures r.Success? ==>
              && r.value == (Share(lpAmount, old(cache.firstTokenReserve), old(cache.lpTokenSupply)),
                             Share(lpAmount, old(cache.secondTokenReserve), old(cache.lpTokenSupply)))
              && IsFloor(r.value.0, lpAmount * old(cache.firstTokenReserve), old(cache.lpTokenSupply))
              && IsFloor(r.value.1, lpAmount * old(cache.secondTokenReserve), old(cache.lpTokenSupply))
              && cache.Pool() == AfterRemove(old(cache.Pool()), lpAmount)
              && PoolOk(cache.Pool()) && Follows(old(cache.Pool()), cache.Pool())
  {
    hide Share, NotDiluted;
    if cache.lpTokenSupply < lpAmount + MINIMUM_LIQUIDITY {
      return Failure;
    }
    RemovalKeepsShares(cache.Pool(), lpAmount);
    ShareIs(lpAmount, cache.firstTokenReserve, cache.lpTokenSupply);
    ShareIs(lpAmount, cache.secondTokenReserve, cache.lpTokenSupply);
    var firstRemoved := Share(lpAmount, cache.firstTokenReserve, cache.lpTokenSupply);
    if firstRemoved == 0 || firstRemoved < firstMin {
      return Failure;
    }
    assert cache.firstTokenReserve > firstRemoved;
    var secondRemoved := Share(lpAmount, cache.secondTokenReserve, cache.lpTokenSupply);
    if secondRemoved == 0 || secondRemoved < secondMin {
      return Failure;
    }
    assert cache.secondTokenReserve > secondRemoved;
    cache.lpTokenSupply := cache.lpTokenSupply - lpAmount;
    cache.firstTokenReserve := cache.firstTokenReserve - firstRemoved;
    cache.secondTokenReserve := cache.secondTokenReserve - secondRemoved;
    return Success((firstRemoved, secondRemoved));
  }

  method SwapSafeNoFee(cache: StorageCache, order: SwapTokensOrder, amountIn: nat) returns (r: Result<nat>)
    modifies cache
    ensures r.Success? <==> CanSwapNoFee(old(cache.Pool()), order, amountIn)
    ensures r.Success? ==>
              && r.value == GetAmountOutNoFee(amountIn, ReserveIn(old(cache.Pool()), order),
                                              ReserveOut(old(cache.Pool()), order))
              && cache.Pool() == AfterSwapNoFee(old(cache.Pool()), order, amountIn)
    ensures r.Failure? ==> cache.Pool() == old(cache.Pool())
  {
    hide GetAmountOutNoFee;
    var reserveIn, reserveOut := ReserveIn(cache.Pool(), order), ReserveOut(cache.Pool(), order);
    if reserveIn == 0 {
      return Failure;
    }
    var amountOut := GetAmountOutNoFee(amountIn, reserveIn, reserveOut);
    if reserveOut <= amountOut || amountOut == 0 {
      return Failure;
    }
    cache.SwapReserves(order, amountIn, amountOut);
    return Success(amountOut);
  }

  // ---- Fees ----

  /** Whom a slice of the fees goes to, and in which token. */
  datatype FeeDestination = FeeDestination(to: Address, token: TokenId)

  datatype FeeSettings = FeeSettings(collectorCut: Option<nat>, destinations: seq<FeeDestination>,
                                     trustedSwapPairs: set<(TokenId, TokenId)>)

  ghost predicate DistinctDestinations(ds: seq<FeeDestination>) {
    forall i, j :: 0 <= i < j < |ds| ==> ds[i].to != ds[j].to
  }

  function HasSwapPair(s: FeeSettings, a: TokenId, b: TokenId): bool {
    (a, b) in s.trustedSwapPairs || (b, a) in s.trustedSwapPairs
  }

  function IsFeeEnabled(s: FeeSettings): bool {
    s.destinations != [] || s.collectorCut.Some?
  }

  /** What other contracts answer during a call: whether the fees collector accepts a deposit, and the fee destinations
      for which the trusted pair accepts the swap. */
  datatype Answers = Answers(collector: bool, destinations: set<nat>)

  /** The tests of send_fee_slice in their order. */
  function RouteOf(s: FeeSettings, first: TokenId, second: TokenId, feeToken: TokenId, requested: TokenId,
                   accepted: bool): Route {
    if feeToken == requested then Direct
    else if (requested == first && feeToken == second) || (requested == second && feeToken == first) then Local
    else if HasSwapPair(s, feeToken, requested) then (if accepted then Extern else Refused)
    else if feeToken == first && HasSwapPair(s, second, requested) then (if accepted then ExternAfterLocal else Refused)
    else if feeToken != first && feeToken == second && HasSwapPair(s, first, requested)
         then (if accepted then ExternAfterLocal else Refused)
    else NoRoute
  }

  /** A slice leaves as it is for a destination that asks for its token, or for one that a trusted pair swaps it to; it
      is swapped in the pool for the pool's other token, also where only that one is trusted further. */
  lemma RouteOfSlice(s: FeeSettings, p: Pool, order: SwapTokensOrder, slice: nat, feeToken: TokenId, other: TokenId,
                     requested: TokenId, accepted: bool)
    requires feeToken != other
    ensures var first, second := if order == PoolOrder then feeToken else other,
                                 if order == PoolOrder then other else feeToken;
            var route := RouteOf(s, first, second, feeToken, requested, accepted);
            var trusted, trustedFurther := HasSwapPair(s, feeToken, requested), HasSwapPair(s, other, requested);
            var foreign := requested != feeToken && requested != other;
            && (route == Direct <==> requested == feeToken)
            && (route == Local <==> requested == other)
            && (route == Extern <==> foreign && trusted && accepted)
            && (route == ExternAfterLocal <==> foreign && !trusted && trustedFurther && accepted)
            && (route == Refused <==> foreign && (trusted || trustedFurther) && !accepted)
            && (CanSendSlice(p, order, slice, route) ==>
                  AfterSlice(p, order, slice, route) ==
                    if requested == other || (foreign && !trusted) then AfterSwapNoFee(p, order, slice) else p)
  {
    hide CanSwapNoFee, AfterSwapNoFee;
  }

  ghost function Routes(s: FeeSettings, first: TokenId, second: TokenId, feeToken: TokenId,
                        answers: Answers): seq<Route> {
    seq(|s.destinations|,
        i requires 0 <= i < |s.destinations| => RouteOf(s, first, second, feeToken, s.destinations[i].token,
                                                                  i in answers.destinations))
  }

  /** One slice leaves for its destination, through the pool's own reserves if need be. What goes out of the contract
      and what the reserves gain add up to the slice. */
  method SendFeeSlice(cache: StorageCache, order: SwapTokensOrder, slice: nat, route: Route)
    returns (ok: bool, sentIn: nat, sentOut: nat)
    modifies cache
    ensures ok <==> CanSendSlice(old(cache.Pool()), order, slice, route)
    ensures ok ==>
              && cache.Pool() == AfterSlice(old(cache.Pool()), order, slice, route)
              && ReserveIn(cache.Pool(), order) + sentIn == ReserveIn(old(cache.Pool()), order) + slice
              && ReserveOut(cache.Pool(), order) + sentOut == ReserveOut(old(cache.Pool()), order)
  {
    hide GetAmountOutNoFee;
    match route {
      case Direct | Extern =>
        return true, slice, 0;
      case Local | ExternAfterLocal =>
        var toSend := SwapSafeNoFee(cache, order, slice);
        if toSend.Failure? {
          return false, 0, 0;
        }
        return true, 0, toSend.value;
      case Refused | NoRoute =>
        return false, 0, 0;
    }
  }

  /** The loop over the fee destinations. */
  method SendSlices(cache: StorageCache, order: SwapTokensOrder, slice: nat, settings: FeeSettings, first: TokenId,
                    second: TokenId, feeToken: TokenId, answers: Answers)
    returns (ok: bool, sentIn: nat, sentOut: nat)
    modifies cache
    ensures var routes := Routes(settings, first, second, feeToken, answers);
            && (ok <==> CanSendSlices(old(cache.Pool()), order, slice, routes))
            && (ok ==>
                  && cache.Pool() == AfterSlices(old(cache.Pool()), order, slice, routes)
                  && ReserveIn(cache.Pool(), order) + sentIn
                     == ReserveIn(old(cache.Pool()), order) + |settings.destinations| * slice
                  && ReserveOut(cache.Pool(), order) + sentOut == ReserveOut(old(cache.Pool()), order))
  {
    hide AfterSlice, CanSendSlice, AfterSlices, CanSendSlices, RouteOf, ReserveIn, ReserveOut;
    ghost var p := cache.Pool();
    ghost var routes := Routes(settings, first, second, feeToken, answers);
    ghost var spent: int := 0;
    sentIn, sentOut := 0, 0;
    SlicesStart(p, order, slice, routes);
    for i := 0 to |settings.destinations|
      invariant CanSendSlices(p, order, slice, routes) <==> CanSendSlices(cache.Pool(), order, slice, routes[i..])
      invariant CanSendSlices(p, order, slice, routes) ==>
                  AfterSlices(p, order, slice, routes) == AfterSlices(cache.Pool(), order, slice, routes[i..])
      invariant spent == i * slice
      invariant ReserveIn(cache.Pool(), order) + sentIn == ReserveIn(p, order) + spent
      invariant ReserveOut(cache.Pool(), order) + sentOut == ReserveOut(p, order)
    {
      var route := RouteOf(settings, first, second, feeToken, settings.destinations[i].token,
                           i in answers.destinations);
      SliceStep(cache.Pool(), order, slice, routes, i);
      var sliceOk, sliceIn, sliceOut := SendFeeSlice(cache, order, slice, route);
      if !sliceOk {
        return false, 0, 0;
      }
      sentIn, sentOut := sentIn + sliceIn, sentOut + sliceOut;
      MulStep(i + 1, slice);
      spent := spent + slice;
    }
    SlicesDone(cache.Pool(), order, slice, routes);
    return true, sentIn, sentOut;
  }

  /** The fee is cut for the collector and sliced for the destinations; less than one unit per destination is left
      over. */
  method SendFee(cache: StorageCache, order: SwapTokensOrder, fee: nat, settings: FeeSettings, first: TokenId,
                 second: TokenId, feeToken: TokenId, answers: Answers)
    returns (ok: bool, sentIn: nat, sentOut: nat, leftOver: nat)
    requires settings.collectorCut.Some? ==> settings.collectorCut.value <= MAX_PERCENTAGE
    modifies cache
    ensures var (cut, slice) := FeeParts(fee, settings);
            var routes := Routes(settings, first, second, feeToken, answers);
            && AreFeeParts(cut, slice, fee, settings)
            && (ok <==>
                (cut > 0 ==> answers.collector)
                && (slice == 0 || CanSendSlices(old(cache.Pool()), order, slice, routes)))
            && (ok ==>
                  && cache.Pool() == (if slice == 0 then old(cache.Pool())
                                      else AfterSlices(old(cache.Pool()), order, slice, routes))
                  && cut <= sentIn
                  && ReserveIn(cache.Pool(), order) + sentIn + leftOver == ReserveIn(old(cache.Pool()), order) + fee
                  && ReserveOut(cache.Pool(), order) + sentOut == ReserveOut(old(cache.Pool()), order)
                  && (settings.destinations != [] ==> leftOver < |settings.destinations|))
  {
    hide AfterSlice, CanSendSlice, AfterSlices, CanSendSlices, RouteOf, ReserveIn, ReserveOut, Routes,
         GetSpecialFeeFromInput, AreFeeParts;
    FeePartsAre(fee, settings);
    if fee == 0 {
      NoFeeNoParts(settings);
      return true, 0, 0, 0;
    }
    var cutAmount := 0;
    if settings.collectorCut.Some? {
      cutAmount := GetSpecialFeeFromInput(fee, settings.collectorCut.value);
      if cutAmount > 0 && !answers.collector {
        return false, 0, 0, 0;
      }
    }
    var remainingFee := fee - cutAmount;
    var slices := |settings.destinations|;
    if slices == 0 {
      return true, cutAmount, 0, remainingFee;
    }
    FloorNat(remainingFee, slices);
    FloorOf(remainingFee, slices);
    var feeSlice: nat := remainingFee / slices;
    SlicesSpent(remainingFee, slices, feeSlice);
    if feeSlice == 0 {
      return true, cutAmount, 0, remainingFee;
    }
    ok, sentIn, sentOut := SendSlices(cache, order, feeSlice, settings, first, second, feeToken, answers);
    if ok {
      sentIn := sentIn + cutAmount;
      leftOver := remainingFee - slices * feeSlice;
    } else {
      leftOver := 0;
    }
  }

  lemma NoFeeNoParts(settings: FeeSettings)
    requires settings.collectorCut.Some? ==> settings.collectorCut.value <= MAX_PERCENTAGE
    ensures FeeParts(0, settings) == (0, 0)
  {
    if settings.destinations != [] {
      FloorExact(0, 0, |settings.destinations|);
    }
  }

  /** The collector's cut and the slice of each destination. */
  function FeeParts(fee: nat, settings: FeeSettings): (nat, nat)
    requires settings.collectorCut.Some? ==> settings.collectorCut.value <= MAX_PERCENTAGE
  {
    var cut := if settings.collectorCut.Some? then GetSpecialFeeFromInput(fee, settings.collectorCut.value) else 0;
    if settings.destinations == [] then (cut, 0) else
      FloorNat(fee - cut, |settings.destinations|);
      (cut, (fee - cut) / |settings.destinations|)
  }

  /** The collector gets its cut of the fee, and every destination the same part of the rest, both rounded down. */
  ghost predicate AreFeeParts(cut: nat, slice: nat, fee: nat, settings: FeeSettings) {
    && (if settings.collectorCut.Some? then IsFloor(cut, fee * settings.collectorCut.value, MAX_PERCENTAGE)
        else cut == 0)
    && (if settings.destinations != [] then IsFloor(slice, fee - cut, |settings.destinations|) else slice == 0)
  }

  lemma FeePartsAre(fee: nat, settings: FeeSettings)
    requires settings.collectorCut.Some? ==> settings.collectorCut.value <= MAX_PERCENTAGE
    ensures var (cut, slice) := FeeParts(fee, settings);
            AreFeeParts(cut, slice, fee, settings)
  {
    var (cut, slice) := FeeParts(fee, settings);
    if settings.collectorCut.Some? {
      SpecialFeeFloor(fee, settings.collectorCut.value);
    }
    if settings.destinations != [] {
      FloorOf(fee - cut, |settings.destinations|);
    }
  }

  lemma SliceStep(p: Pool, order: SwapTokensOrder, slice: nat, routes: seq<Route>, i: nat)
    requires i < |routes|
    ensures CanSendSlices(p, order, slice, routes[i..]) <==>
              CanSendSlice(p, order, slice, routes[i]) && CanSendSlices(AfterSlice(p, order, slice, routes[i]), order,
                                                                        slice, routes[i + 1..])
    ensures CanSendSlices(p, order, slice, routes[i..]) ==>
              AfterSlices(p, order, slice, routes[i..]) == AfterSlices(AfterSlice(p, order, slice, routes[i]), order,
                                                                       slice, routes[i + 1..])
  {
    assert routes[i..][1..] == routes[i + 1..];
  }

  lemma SlicesStart(p: Pool, order: SwapTokensOrder, slice: nat, routes: seq<Route>)
    ensures routes[0..] == routes
  {
  }

  lemma SlicesDone(p: Pool, order: SwapTokensOrder, slice: nat, routes: seq<Route>)
    ensures CanSendSlices(p, order, slice, routes[|routes|..]) && AfterSlices(p, order, slice, routes[|routes|..]) == p
  {
  }

  lemma SlicesSpent(fee: nat, n: nat, slice: nat)
    requires IsFloor(slice, fee, n)
    ensures n * slice <= fee < n * slice + n
    ensures slice == 0 ==> fee < n
  {
  }

  // ---- What the endpoints do to the state ----

  ghost predicate SettingsOk(s: FeeSettings) {
    s.collectorCut.Some? ==> s.collectorCut.value <= MAX_PERCENTAGE
  }

  /** The special fee is only withheld while there is someone to send it to. */
  function FeeOn(x: nat, settings: FeeSettings, specialFeePercent: nat): (r: nat)
    requires specialFeePercent <= MAX_PERCENTAGE
    ensures r <= GetSpecialFeeFromInput(x, specialFeePercent) <= x
  {
    if IsFeeEnabled(settings) then GetSpecialFeeFromInput(x, specialFeePercent) else 0
  }

  /** The part of the input that is withheld: nothing without a destination or a collector for it. */
  ghost predicate IsFeeOn(fee: nat, x: nat, settings: FeeSettings, specialFeePercent: nat) {
    if settings.destinations == [] && settings.collectorCut.None? then fee == 0
    else IsFloor(fee, x * specialFeePercent, MAX_PERCENTAGE)
  }

  lemma FeeOnIs(x: nat, settings: FeeSettings, specialFeePercent: nat)
    requires specialFeePercent <= MAX_PERCENTAGE
    ensures IsFeeOn(FeeOn(x, settings, specialFeePercent), x, settings, specialFeePercent)
  {
    SpecialFeeFloor(x, specialFeePercent);
  }

  ghost predicate CanSendFee(p: Pool, order: SwapTokensOrder, fee: nat, settings: FeeSettings, routes: seq<Route>,
                             collector: bool)
    requires SettingsOk(settings)
  {
    var (cut, slice) := FeeParts(fee, settings);
    (cut > 0 ==> collector) && (slice == 0 || CanSendSlices(p, order, slice, routes))
  }

  ghost function AfterFee(p: Pool, order: SwapTokensOrder, fee: nat, settings: FeeSettings, routes: seq<Route>,
                          collector: bool): Pool
    requires SettingsOk(settings) && CanSendFee(p, order, fee, settings, routes, collector)
  {
    var (_, slice) := FeeParts(fee, settings);
    if slice == 0 then p else AfterSlices(p, order, slice, routes)
  }

  /** Paying at the price and then sending the fee dilutes no one. */
  lemma SwapAndFeeKeepShares(p: Pool, order: SwapTokensOrder, x: nat, y: nat, settings: FeeSettings, routes: seq<Route>,
                             collector: bool, special: nat, total: nat)
    requires PoolOk(p) && p.supply > 0 && special <= total <= MAX_PERCENTAGE && SettingsOk(settings)
    requires y < ReserveOut(p, order) && y <= GetAmountOut(x, ReserveIn(p, order), ReserveOut(p, order), total)
    ensures var fee := FeeOn(x, settings, special);
            var q := Swapped(p, order, x - fee, y);
            && q.first * q.second >= p.first * p.second
            && (CanSendFee(q, order, fee, settings, routes, collector) ==>
                  var r := AfterFee(q, order, fee, settings, routes, collector);
                  PoolOk(r) && Follows(p, r))
  {
    hide GetAmountOut, GetSpecialFeeFromInput, NotDiluted, Follows, PoolOk, CanSendSlices, AfterSlices, FeeParts;
    var fee := FeeOn(x, settings, special);
    var q := Swapped(p, order, x - fee, y);
    PaidSwapKeepsShares(p, order, x, y, fee, special, total);
    StartedFollows(p, q);
    SwapRaisesProduct(p, order, x, y, fee, special, total);
    if CanSendFee(q, order, fee, settings, routes, collector) {
      var (_, slice) := FeeParts(fee, settings);
      if slice != 0 {
        SlicesKeepShares(q, order, slice, routes);
        FollowsTransitive(p, q, AfterSlices(q, order, slice, routes));
      }
    }
  }

  lemma StartedFollows(p: Pool, q: Pool)
    requires Follows(p, q) && p.supply > 0
    ensures q.supply > 0
  {
  }

  lemma SwapRaisesProduct(p: Pool, order: SwapTokensOrder, x: nat, y: nat, withheld: nat, special: nat, total: nat)
    requires PoolOk(p) && p.supply > 0 && special <= total <= MAX_PERCENTAGE
    requires withheld <= GetSpecialFeeFromInput(x, special)
    requires y < ReserveOut(p, order) && y <= GetAmountOut(x, ReserveIn(p, order), ReserveOut(p, order), total)
    ensures var q := Swapped(p, order, x - withheld, y);
            q.first * q.second >= p.first * p.second
  {
    hide GetAmountOut, GetSpecialFeeFromInput;
    var ri, ro := ReserveIn(p, order), ReserveOut(p, order);
    SwapKeepsProduct(x, y, ri, ro, special, total);
    MulLe(ri + x - GetSpecialFeeFromInput(x, special), ri + x - withheld, ro - y);
  }

  lemma FirstLiquidityFollows(q: Pool)
    requires PoolOk(q)
    ensures Follows(Pool(0, 0, 0), q)
  {
    assert q.first * q.second * (0 * 0) == 0;
  }

  lemma AddedFollows(p: Pool, first: nat, second: nat, l: nat)
    requires PoolOk(p) && p.supply > 0 && EarnsAtMost(l, p, first, second)
    ensures var q := Pool(p.first + first, p.second + second, p.supply + l);
            PoolOk(q) && Follows(p, q) && p.first * p.second <= q.first * q.second
  {
    hide NotDiluted;
    AddingKeepsShares(p, first, second, l);
    ProductsInOrder(p.first, p.second, p.first + first, p.second + second);
  }

  /** Tokens the contract holds; the reserves are what it accounts for. */
  datatype Balance = Balance(first: int, second: int)

  ghost function BalanceAfter(b: Balance, order: SwapTokensOrder, received: int, paid: int): Balance {
    if order == PoolOrder then Balance(b.first + received, b.second - paid)
    else Balance(b.first - paid, b.second + received)
  }

  ghost predicate Covers(b: Balance, p: Pool) {
    p.first <= b.first && p.second <= b.second
  }

  lemma StillCovers(b: Balance, p: Pool, order: SwapTokensOrder, q: Pool, received: int, paid: int)
    requires Covers(b, p)
    requires ReserveIn(q, order) <= ReserveIn(p, order) + received
    requires ReserveOut(q, order) + paid <= ReserveOut(p, order)
    ensures Covers(BalanceAfter(b, order, received, paid), q)
  {
  }

  /** Every token of a swap is accounted for. */
  ghost predicate Settled(p: Pool, q: Pool, order: SwapTokensOrder, amountIn: nat, amountOut: nat, sentIn: nat,
                          sentOut: nat, leftOver: nat) {
    && ReserveIn(q, order) + sentIn + leftOver == ReserveIn(p, order) + amountIn
    && ReserveOut(q, order) + sentOut + amountOut == ReserveOut(p, order)
  }

  class Pair {
    const firstTokenId: TokenId
    const secondTokenId: TokenId
    var firstTokenReserve: nat
    var secondTokenReserve: nat
    var lpTokenSupply: nat
    var totalFeePercent: nat
    var specialFeePercent: nat
    var feeSettings: FeeSettings
    ghost var balance: Balance
    ghost var history: seq<Pool>

    function Pool(): Pool
      reads this
    {
      PoolShares.Pool(firstTokenReserve, secondTokenReserve, lpTokenSupply)
    }

    ghost predicate Valid()
      reads this
    {
      && PoolOk(Pool())
      && specialFeePercent <= totalFeePercent <= MAX_FEE_PERCENTAGE
      && SettingsOk(feeSettings) && DistinctDestinations(feeSettings.destinations)
      && Covers(balance, Pool())
      && IsRun(history) && history != [] && history[|history| - 1] == Pool()
    }

    ghost function RoutesFor(order: SwapTokensOrder, answers: Answers): seq<Route>
      reads this
    {
      Routes(feeSettings, firstTokenId, secondTokenId, if order == PoolOrder then firstTokenId else secondTokenId,
             answers)
    }

    constructor (firstTokenId: TokenId, secondTokenId: TokenId, totalFeePercent: nat, specialFeePercent: nat)
      requires firstTokenId != secondTokenId && specialFeePercent <= totalFeePercent <= MAX_FEE_PERCENTAGE
      ensures Valid() && Pool() == PoolShares.Pool(0, 0, 0)
    {
      this.firstTokenId, this.secondTokenId := firstTokenId, secondTokenId;
      this.totalFeePercent, this.specialFeePercent := totalFeePercent, specialFeePercent;
      firstTokenReserve, secondTokenReserve, lpTokenSupply := 0, 0, 0;
      feeSettings := FeeSettings(None, [], {});
      balance, history := Balance(0, 0), [PoolShares.Pool(0, 0, 0)];
    }

    method SetFeePercents(total: nat, special: nat) returns (ok: bool)
      requires Valid()
      modifies this`totalFeePercent, this`specialFeePercent
      ensures Valid()
      ensures ok <==> special <= total <= MAX_FEE_PERCENTAGE
      ensures totalFeePercent == (if ok then total else old(totalFeePercent))
      ensures specialFeePercent == (if ok then special else old(specialFeePercent))
    {
      if !(total >= special && total <= MAX_FEE_PERCENTAGE) {
        return false;
      }
      totalFeePercent, specialFeePercent := total, special;
      return true;
    }

    /** A collector takes part of the special fees, but not none of them. */
    method SetupFeesCollector(feesCollectorCutPercentage: nat) returns (ok: bool)
      requires Valid()
      modifies this`feeSettings
      ensures Valid()
      ensures ok <==> 0 < feesCollectorCutPercentage <= MAX_PERCENTAGE
      ensures feeSettings
           == if ok then old(feeSettings).(collectorCut := Some(feesCollectorCutPercentage)) else old(feeSettings)
    {
      if !(feesCollectorCutPercentage > 0 && feesCollectorCutPercentage <= MAX_PERCENTAGE) {
        return false;
      }
      feeSettings := feeSettings.(collectorCut := Some(feesCollectorCutPercentage));
      return true;
    }

    /** A destination is added once, and removed with the token it was added with; the others keep their order. */
    method SetFeeOn(enabled: bool, feeTo: Address, feeToken: TokenId) returns (ok: bool)
      requires Valid()
      modifies this`feeSettings
      ensures Valid()
      ensures ok <==> if enabled then forall d :: d in old(feeSettings).destinations ==> d.to != feeTo
                      else FeeDestination(feeTo, feeToken) in old(feeSettings).destinations
      ensures !ok ==> feeSettings == old(feeSettings)
      ensures ok && enabled ==>
                feeSettings
                == old(feeSettings).(destinations := old(feeSettings).destinations + [FeeDestination(feeTo, feeToken)])
      ensures ok && !enabled ==>
                exists k :: 0 <= k < |old(feeSettings).destinations|
                  && old(feeSettings).destinations[k] == FeeDestination(feeTo, feeToken)
                  && feeSettings
                     == old(feeSettings).(destinations := old(feeSettings).destinations[..k]
                                                           + old(feeSettings).destinations[k + 1..])
    {
      hide PoolOk, IsRun, Covers;
      var destinations := feeSettings.destinations;
      var k := 0;
      while k < |destinations| && destinations[k].to != feeTo
        invariant 0 <= k <= |destinations| && forall j :: 0 <= j < k ==> destinations[j].to != feeTo
        modifies {}
      {
        k := k + 1;
      }
      if enabled {
        if k < |destinations| {
          return false;
        }
        feeSettings := feeSettings.(destinations := destinations + [FeeDestination(feeTo, feeToken)]);
      } else {
        if k == |destinations| || destinations[k].token != feeToken {
          return false;
        }
        feeSettings := feeSettings.(destinations := destinations[..k] + destinations[k + 1..]);
      }
      return true;
    }

    method AddTrustedSwapPair(first: TokenId, second: TokenId) returns (ok: bool)
      requires Valid()
      modifies this`feeSettings
      ensures Valid()
      ensures ok <==> first != second && (first, second) !in old(feeSettings).trustedSwapPairs
      ensures feeSettings ==
              if ok then old(feeSettings).(trustedSwapPairs := old(feeSettings).trustedSwapPairs + {(first, second)})
              else old(feeSettings)
    {
      hide PoolOk, IsRun, Covers;
      if first == second || (first, second) in feeSettings.trustedSwapPairs {
        return false;
      }
      feeSettings := feeSettings.(trustedSwapPairs := feeSettings.trustedSwapPairs + {(first, second)});
      return true;
    }

    /** The pair is removed as it was added, or else the other way around; of one added both ways, one stays trusted. */
    method RemoveTrustedSwapPair(first: TokenId, second: TokenId) returns (ok: bool)
      requires Valid()
      modifies this`feeSettings
      ensures Valid() && (ok <==> HasSwapPair(old(feeSettings), first, second))
      ensures !ok ==> feeSettings == old(feeSettings)
      ensures ok ==>
                feeSettings.collectorCut == old(feeSettings).collectorCut
                && feeSettings.destinations == old(feeSettings).destinations
      ensures ok ==> |feeSettings.trustedSwapPairs| == |old(feeSettings).trustedSwapPairs| - 1
      ensures ok ==> (first, second) !in feeSettings.trustedSwapPairs
      ensures ok ==>
                old(feeSettings).trustedSwapPairs - {(first, second), (second, first)} <= feeSettings.trustedSwapPairs
                     <= old(feeSettings).trustedSwapPairs
      ensures first != second ==>
                (ok && HasSwapPair(feeSettings, first, second) <==>
                 {(first, second), (second, first)} <= old(feeSettings).trustedSwapPairs)
    {
      hide PoolOk, IsRun, Covers;
      var removed := (first, second);
      if removed !in feeSettings.trustedSwapPairs {
        removed := (second, first);
        if removed !in feeSettings.trustedSwapPairs {
          return false;
        }
      }
      feeSettings := feeSettings.(trustedSwapPairs := feeSettings.trustedSwapPairs - {removed});
      return true;
    }

    method Commit(cache: StorageCache, ghost newBalance: Balance)
      requires Valid() && PoolOk(cache.Pool()) && Follows(Pool(), cache.Pool()) && Covers(newBalance, cache.Pool())
      modifies this`firstTokenReserve, this`secondTokenReserve, this`lpTokenSupply, this`balance, this`history
      ensures Valid() && Pool() == cache.Pool() && balance == newBalance && history == old(history) + [Pool()]
    {
      RunGrows(history, cache.Pool());
      firstTokenReserve, secondTokenReserve := cache.firstTokenReserve, cache.secondTokenReserve;
      lpTokenSupply := cache.lpTokenSupply;
      balance := newBalance;
      history := history + [cache.Pool()];
    }

    // ---- Endpoints ----

    method AddInitialLiquidity(first: nat, second: nat) returns (r: Result<nat>)
      requires Valid() && first > 0 && second > 0
      modifies this`firstTokenReserve, this`secondTokenReserve, this`lpTokenSupply, this`balance, this`history
      ensures Valid()
      ensures r.Success? <==> old(lpTokenSupply) == 0 && first > MINIMUM_LIQUIDITY && second > MINIMUM_LIQUIDITY
      ensures r.Success? ==>
                && Pool() == PoolShares.Pool(first, second, r.value + MINIMUM_LIQUIDITY)
                && r.value + MINIMUM_LIQUIDITY == (if first <= second then first else second)
                && balance == Balance(old(balance.first) + first, old(balance.second) + second)
                && history == old(history) + [Pool()]
      ensures r.Failure? ==> Pool() == old(Pool()) && history == old(history) && balance == old(balance)
    {
      hide NotDiluted, IsRun;
      var cache := new StorageCache(Pool());
      if cache.lpTokenSupply != 0 {
        return Failure;
      }
      r := PoolAddInitialLiquidity(cache, first, second);
      if r.Success? {
        FirstLiquidityFollows(cache.Pool());
        Commit(cache, Balance(balance.first + first, balance.second + second));
      }
    }

    /** Takes the optimal amounts and sends the rest back. Neither the check that they were paid nor the check of the
        product can fail. */
    method AddLiquidity(first: nat, second: nat, firstMin: nat, secondMin: nat) returns (r: Result<nat>,
                        used: (nat, nat))
      requires Valid() && first > 0 && second > 0
      modifies this`firstTokenReserve, this`secondTokenReserve, this`lpTokenSupply, this`balance, this`history
      ensures Valid()
      ensures used == OptimalAmounts(old(Pool()), first, second)
      ensures r.Success? <==>
                && firstMin > 0 && secondMin > 0
                && if old(lpTokenSupply) == 0 then first > MINIMUM_LIQUIDITY && second > MINIMUM_LIQUIDITY
                   else used.0 >= firstMin && used.1 >= secondMin && EarnsAtMost(1, old(Pool()), used.0, used.1)
      ensures r.Success? ==>
                && firstTokenReserve == old(firstTokenReserve) + used.0
                && secondTokenReserve == old(secondTokenReserve) + used.1
                && balance == Balance(old(balance.first) + used.0, old(balance.second) + used.1)
                && history == old(history) + [Pool()]
                && (old(lpTokenSupply) == 0 ==>
                      lpTokenSupply == r.value + MINIMUM_LIQUIDITY == if first <= second then first else second)
                && (old(lpTokenSupply) > 0 ==>
                      && lpTokenSupply == old(lpTokenSupply) + r.value
                      && forall l: int :: l <= r.value <==> EarnsAtMost(l, old(Pool()), used.0, used.1))
      ensures r.Failure? ==> Pool() == old(Pool()) && history == old(history) && balance == old(balance)
    {
      hide NotDiluted, IsRun, EarnsAtMost, OptimalAmounts;
      ghost var p := Pool();
      used := OptimalAmounts(Pool(), first, second);
      if firstMin == 0 || secondMin == 0 {
        return Failure, used;
      }
      var cache := new StorageCache(Pool());
      if cache.lpTokenSupply == 0 {
        r := PoolAddInitialLiquidity(cache, used.0, used.1);
        if r.Failure? {
          return Failure, used;
        }
        FirstLiquidityFollows(cache.Pool());
      } else {
        if used.0 < firstMin || used.1 < secondMin {
          return Failure, used;
        }
        r := PoolAddLiquidity(cache, used.0, used.1);
        if r.Failure? {
          return Failure, used;
        }
        AddedFollows(p, used.0, used.1, r.value);
      }
      Commit(cache, Balance(balance.first + used.0, balance.second + used.1));
    }

    method RemoveLiquidity(lpAmount: nat, firstMin: nat, secondMin: nat) returns (r: Result<(nat, nat)>)
      requires Valid() && lpAmount > 0
      modifies this`firstTokenReserve, this`secondTokenReserve, this`lpTokenSupply, this`balance, this`history
      ensures Valid()
      ensures r.Success? <==> firstMin > 0 && secondMin > 0 && CanRemove(old(Pool()), lpAmount, firstMin, secondMin)
      ensures r.Success? ==>
                && r.value == (Share(lpAmount, old(firstTokenReserve), old(lpTokenSupply)),
                               Share(lpAmount, old(secondTokenReserve), old(lpTokenSupply)))
                && IsFloor(r.value.0, lpAmount * old(firstTokenReserve), old(lpTokenSupply))
                && IsFloor(r.value.1, lpAmount * old(secondTokenReserve), old(lpTokenSupply))
                && Pool() == AfterRemove(old(Pool()), lpAmount)
                && balance == Balance(old(balance.first) - r.value.0, old(balance.second) - r.value.1)
                && history == old(history) + [Pool()]
      ensures r.Failure? ==> Pool() == old(Pool()) && history == old(history) && balance == old(balance)
    {
      hide NotDiluted, IsRun, Share;
      if firstMin == 0 || secondMin == 0 {
        return Failure;
      }
      var cache := new StorageCache(Pool());
      r := PoolRemoveLiquidity(cache, lpAmount, firstMin, secondMin);
      if r.Success? {
        Commit(cache, Balance(balance.first - r.value.0, balance.second - r.value.1));
      }
    }

    /** Liquidity taken out by a whitelisted caller, to be swapped into one token and burned; the swaps may go through
        the very reserves that are left. */
    method RemoveLiquidityAndBurnToken(lpAmount: nat, token: TokenId, accepted: (bool, bool))
      returns (ok: bool, sent: (nat, nat), ghost removed: (nat, nat))
      requires Valid() && lpAmount > 0
      modifies this`firstTokenReserve, this`secondTokenReserve, this`lpTokenSupply, this`balance, this`history
      ensures Valid()
      ensures ok <==>
                CanBuyBack(old(Pool()), lpAmount, old(RouteFor(PoolOrder, token, accepted.0)),
                           old(RouteFor(ReverseOrder, token, accepted.1)))
      ensures ok ==>
                && IsFloor(removed.0, lpAmount * old(firstTokenReserve), old(lpTokenSupply))
                && IsFloor(removed.1, lpAmount * old(secondTokenReserve), old(lpTokenSupply))
                && Pool() == AfterBuyBack(old(Pool()), lpAmount, old(RouteFor(PoolOrder, token, accepted.0)),
                                          old(RouteFor(ReverseOrder, token, accepted.1)))
                && firstTokenReserve + sent.0 == old(firstTokenReserve)
                && secondTokenReserve + sent.1 == old(secondTokenReserve)
                && balance == Balance(old(balance.first) - sent.0, old(balance.second) - sent.1)
                && history == old(history) + [Pool()]
      ensures !ok ==> Pool() == old(Pool()) && history == old(history) && balance == old(balance)
    {
      hide NotDiluted, IsRun, Share, PoolOk, CanSendSlice, AfterSlice, RouteOf, Follows;
      sent, removed := (0, 0), (0, 0);
      ghost var p := Pool();
      var cache := new StorageCache(Pool());
      var amounts := PoolRemoveLiquidity(cache, lpAmount, 1, 1);
      if amounts.Failure? {
        return false, (0, 0), (0, 0);
      }
      ghost var q := cache.Pool();
      var (first, second) := amounts.value;
      removed := (first, second);
      RemovalStarted(p, q);
      var sentFirst, sentSecond, moreFirst, moreSecond := 0, 0, 0, 0;
      var route := RouteOf(feeSettings, firstTokenId, secondTokenId, firstTokenId, token, accepted.0);
      ok, sentFirst, sentSecond := SendFeeSlice(cache, PoolOrder, first, route);
      if !ok {
        return;
      }
      ghost var q' := cache.Pool();
      SliceKeepsShares(p, q, PoolOrder, first, route);
      route := RouteOf(feeSettings, firstTokenId, secondTokenId, secondTokenId, token, accepted.1);
      ok, moreSecond, moreFirst := SendFeeSlice(cache, ReverseOrder, second, route);
      if !ok {
        return;
      }
      SliceKeepsShares(p, q', ReverseOrder, second, route);
      sent := (sentFirst + moreFirst, sentSecond + moreSecond);
      Commit(cache, Balance(balance.first - sent.0, balance.second - sent.1));
    }

    ghost function RouteFor(order: SwapTokensOrder, requested: TokenId, accepted: bool): Route
      reads this
    {
      RouteOf(feeSettings, firstTokenId, secondTokenId, if order == PoolOrder then firstTokenId else secondTokenId,
              requested, accepted)
    }

    /** The reserves follow the price and the fee, whatever the fee's destinations do with the pool. */
    method SwapTokensFixedInput(order: SwapTokensOrder, amountIn: nat, amountOutMin: nat, answers: Answers)
      returns (r: Result<nat>, sentIn: nat, sentOut: nat, leftOver: nat)
      requires Valid() && amountIn > 0
      modifies this`firstTokenReserve, this`secondTokenReserve, this`lpTokenSupply, this`balance, this`history
      ensures Valid()
      ensures r.Success? <==> CanSwap(old(Pool()), order, amountIn, amountOutMin, old(totalFeePercent),
                                      old(specialFeePercent), feeSettings, old(RoutesFor(order, answers)),
                                      answers.collector)
      ensures r.Success? ==>
                && r.value == GetAmountOut(amountIn, ReserveIn(old(Pool()), order), ReserveOut(old(Pool()), order),
                                           totalFeePercent)
                && SwapsTo(old(Pool()), Pool(), order, amountIn, r.value, specialFeePercent, feeSettings,
                           old(RoutesFor(order, answers)), answers.collector)
                && Settled(old(Pool()), Pool(), order, amountIn, r.value, sentIn, sentOut, leftOver)
                && FeeParts(FeeOn(amountIn, feeSettings, specialFeePercent), feeSettings).0 <= sentIn
                && balance == BalanceAfter(old(balance), order, amountIn - sentIn, r.value + sentOut)
                && history == old(history) + [Pool()]
      ensures r.Failure? ==> Pool() == old(Pool()) && history == old(history) && balance == old(balance)
    {
      hide NotDiluted, IsRun, GetAmountOut, GetSpecialFeeFromInput, Swapped, CanSendFee, AfterFee, Routes, Follows,
           FeeParts, IsFeeOn, AreFeeParts;
      var cache := new StorageCache(Pool());
      ghost var p, routes := Pool(), RoutesFor(order, answers);
      var reserveIn, reserveOut := ReserveIn(Pool(), order), ReserveOut(Pool(), order);
      if amountOutMin == 0 || reserveOut <= amountOutMin {
        return Failure, 0, 0, 0;
      }
      AmountOutBelowReserve(amountIn, reserveIn, reserveOut, totalFeePercent);
      var amountOut := GetAmountOut(amountIn, reserveIn, reserveOut, totalFeePercent);
      if amountOut < amountOutMin {
        return Failure, 0, 0, 0;
      }
      assert reserveOut > amountOut && amountOut != 0;
      SwapAndFeeKeepShares(p, order, amountIn, amountOut, feeSettings, routes, answers.collector, specialFeePercent,
                           totalFeePercent);
      var ok: bool;
      ok, sentIn, sentOut, leftOver := Settle(cache, order, amountIn, amountOut, answers);
      if !ok {
        return Failure, 0, 0, 0;
      }
      StillCovers(balance, p, order, cache.Pool(), amountIn - sentIn, amountOut + sentOut);
      Commit(cache, BalanceAfter(balance, order, amountIn - sentIn, amountOut + sentOut));
      return Success(amountOut), sentIn, sentOut, leftOver;
    }

    /** The reserve updates of a swap and the fee it sends. The input ends up in the reserves, with the destinations of
        the fee, or left over in the contract. */
    method Settle(cache: StorageCache, order: SwapTokensOrder, amountIn: nat, amountOut: nat, answers: Answers)
      returns (ok: bool, sentIn: nat, sentOut: nat, leftOver: nat)
      requires Valid() && cache.Pool() == Pool() && amountOut <= ReserveOut(Pool(), order)
      modifies cache
      ensures var fee := FeeOn(amountIn, feeSettings, specialFeePercent);
              var (cut, slice) := FeeParts(fee, feeSettings);
              var q := Swapped(Pool(), order, amountIn - fee, amountOut);
              && IsFeeOn(fee, amountIn, feeSettings, specialFeePercent)
              && AreFeeParts(cut, slice, fee, feeSettings) && (ok ==> cut <= sentIn)
              && (ok <==> CanSendFee(q, order, fee, feeSettings, RoutesFor(order, answers), answers.collector))
              && (ok ==> cache.Pool() == AfterFee(q, order, fee, feeSettings, RoutesFor(order, answers),
                                                  answers.collector))
      ensures ok ==> Settled(Pool(), cache.Pool(), order, amountIn, amountOut, sentIn, sentOut, leftOver)
    {
      hide NotDiluted, IsRun, GetSpecialFeeFromInput, AfterSlices, CanSendSlices, Routes, FeeParts, IsFeeOn,
           AreFeeParts;
      FeeOnIs(amountIn, feeSettings, specialFeePercent);
      var amountInAfterFee, feeAmount := amountIn, 0;
      if IsFeeEnabled(feeSettings) {
        feeAmount := GetSpecialFeeFromInput(amountIn, specialFeePercent);
        amountInAfterFee := amountInAfterFee - feeAmount;
      }
      cache.SwapReserves(order, amountInAfterFee, amountOut);
      var feeToken := if order == PoolOrder then firstTokenId else secondTokenId;
      ok, sentIn, sentOut, leftOver := SendFee(cache, order, feeAmount, feeSettings, firstTokenId, secondTokenId,
                                               feeToken, answers);
    }

    /** Buying an exact amount: the input asked for is charged, the rest of the payment goes back. */
    method SwapTokensFixedOutput(order: SwapTokensOrder, amountInMax: nat, amountOut: nat, answers: Answers)
      returns (r: Result<nat>, sentIn: nat, sentOut: nat, leftOver: nat)
      requires Valid() && amountInMax > 0
      modifies this`firstTokenReserve, this`secondTokenReserve, this`lpTokenSupply, this`balance, this`history
      ensures Valid()
      ensures r.Success? <==> CanBuy(old(Pool()), order, amountInMax, amountOut, old(totalFeePercent),
                                      old(specialFeePercent), feeSettings,
                                      old(RoutesFor(order, answers)), answers.collector)
      ensures r.Success? ==>
                && r.value == GetAmountIn(amountOut, ReserveIn(old(Pool()), order), ReserveOut(old(Pool()), order),
                                          totalFeePercent)
                && r.value <= amountInMax
                && SwapsTo(old(Pool()), Pool(), order, r.value, amountOut, specialFeePercent, feeSettings,
                           old(RoutesFor(order, answers)), answers.collector)
                && Settled(old(Pool()), Pool(), order, r.value, amountOut, sentIn, sentOut, leftOver)
                && FeeParts(FeeOn(r.value, feeSettings, specialFeePercent), feeSettings).0 <= sentIn
                && balance == BalanceAfter(old(balance), order, r.value - sentIn, amountOut + sentOut)
                && history == old(history) + [Pool()]
      ensures r.Failure? ==> Pool() == old(Pool()) && history == old(history) && balance == old(balance)
    {
      hide NotDiluted, IsRun, GetAmountOut, GetAmountIn, GetSpecialFeeFromInput, Swapped, CanSendFee, AfterFee, Routes,
           Follows, FeeParts, IsFeeOn, AreFeeParts;
      var cache := new StorageCache(Pool());
      ghost var p, routes := Pool(), RoutesFor(order, answers);
      var reserveIn, reserveOut := ReserveIn(Pool(), order), ReserveOut(Pool(), order);
      if amountOut == 0 || reserveOut <= amountOut {
        return Failure, 0, 0, 0;
      }
      AmountInSuffices(amountOut, reserveIn, reserveOut, totalFeePercent);
      var amountIn := GetAmountIn(amountOut, reserveIn, reserveOut, totalFeePercent);
      if amountInMax < amountIn {
        return Failure, 0, 0, 0;
      }
      SwapAndFeeKeepShares(p, order, amountIn, amountOut, feeSettings, routes, answers.collector, specialFeePercent,
                           totalFeePercent);
      var ok: bool;
      ok, sentIn, sentOut, leftOver := Settle(cache, order, amountIn, amountOut, answers);
      if !ok {
        return Failure, 0, 0, 0;
      }
      StillCovers(balance, p, order, cache.Pool(), amountIn - sentIn, amountOut + sentOut);
      Commit(cache, BalanceAfter(balance, order, amountIn - sentIn, amountOut + sentOut));
      return Success(amountIn), sentIn, sentOut, leftOver;
    }

    /** The whitelisted swap other pairs use for their fees; what it buys is burned. */
    method SwapNoFee(order: SwapTokensOrder, amountIn: nat) returns (r: Result<nat>)
      requires Valid() && amountIn > 0
      modifies this`firstTokenReserve, this`secondTokenReserve, this`lpTokenSupply, this`balance, this`history
      ensures Valid()
      ensures r.Success? <==> CanSwapNoFee(old(Pool()), order, amountIn)
      ensures r.Success? ==>
                && Pool() == AfterSwapNoFee(old(Pool()), order, amountIn)
                && r.value == GetAmountOutNoFee(amountIn, ReserveIn(old(Pool()), order), ReserveOut(old(Pool()), order))
                && balance == BalanceAfter(old(balance), order, amountIn, r.value)
                && history == old(history) + [Pool()]
      ensures r.Failure? ==> Pool() == old(Pool()) && history == old(history) && balance == old(balance)
    {
      hide NotDiluted, IsRun, GetAmountOutNoFee;
      var cache := new StorageCache(Pool());
      ghost var p := Pool();
      r := SwapSafeNoFee(cache, order, amountIn);
      if r.Success? {
        SwapNoFeeKeepsShares(p, order, amountIn);
        StillCovers(balance, p, order, cache.Pool(), amountIn, r.value);
        Commit(cache, BalanceAfter(balance, order, amountIn, r.value));
      }
    }
  }

  ghost predicate CanBuyBack(p: Pool, lpAmount: nat, firstRoute: Route, secondRoute: Route)
    requires PoolOk(p)
  {
    && CanRemove(p, lpAmount, 1, 1)
    && var q := AfterRemove(p, lpAmount);
       var first, second := Share(lpAmount, p.first, p.supply), Share(lpAmount, p.second, p.supply);
       && CanSendSlice(q, PoolOrder, first, firstRoute)
       && CanSendSlice(AfterSlice(q, PoolOrder, first, firstRoute), ReverseOrder, second, secondRoute)
  }

  ghost function AfterBuyBack(p: Pool, lpAmount: nat, firstRoute: Route, secondRoute: Route): Pool
    requires PoolOk(p) && CanBuyBack(p, lpAmount, firstRoute, secondRoute)
  {
    var q := AfterRemove(p, lpAmount);
    var first, second := Share(lpAmount, p.first, p.supply), Share(lpAmount, p.second, p.supply);
    AfterSlice(AfterSlice(q, PoolOrder, first, firstRoute), ReverseOrder, second, secondRoute)
  }

  lemma RemovalStarted(p: Pool, q: Pool)
    requires PoolOk(p) && Follows(p, q) && PoolOk(q) && p.supply >= MINIMUM_LIQUIDITY
    ensures q.supply > 0
  {
    hide NotDiluted;
  }

  lemma SliceKeepsShares(p: Pool, q: Pool, order: SwapTokensOrder, slice: nat, route: Route)
    requires PoolOk(q) && Follows(p, q) && q.supply > 0 && CanSendSlice(q, order, slice, route)
    ensures var r := AfterSlice(q, order, slice, route);
            PoolOk(r) && Follows(p, r) && r.supply > 0
  {
    hide PoolOk, Follows, NotDiluted, CanSwapNoFee, AfterSwapNoFee;
    if route == Local || route == ExternAfterLocal {
      SwapNoFeeKeepsShares(q, order, slice);
      StartedFollows(q, AfterSwapNoFee(q, order, slice));
      FollowsTransitive(p, q, AfterSwapNoFee(q, order, slice));
    }
  }

  ghost predicate CanSwap(p: Pool, order: SwapTokensOrder, x: nat, outMin: nat, total: nat, special: nat,
                          settings: FeeSettings, routes: seq<Route>, collector: bool)
    requires PoolOk(p) && SettingsOk(settings) && total <= MAX_PERCENTAGE && special <= MAX_PERCENTAGE
  {
    && 0 < outMin < ReserveOut(p, order)
    && var y, fee := GetAmountOut(x, ReserveIn(p, order), ReserveOut(p, order), total), FeeOn(x, settings, special);
       AmountOutBelowReserve(x, ReserveIn(p, order), ReserveOut(p, order), total);
       outMin <= y && CanSendFee(Swapped(p, order, x - fee, y), order, fee, settings, routes, collector)
  }

  ghost predicate CanBuy(p: Pool, order: SwapTokensOrder, xMax: nat, y: nat, total: nat, special: nat,
                         settings: FeeSettings, routes: seq<Route>, collector: bool)
    requires PoolOk(p) && SettingsOk(settings) && total < MAX_PERCENTAGE && special <= MAX_PERCENTAGE
  {
    && 0 < y < ReserveOut(p, order)
    && var x := GetAmountIn(y, ReserveIn(p, order), ReserveOut(p, order), total);
       && x <= xMax
       && var fee := FeeOn(x, settings, special);
          CanSendFee(Swapped(p, order, x - fee, y), order, fee, settings, routes, collector)
  }

  /** The reserves after a swap and the fee it sends. */
  ghost predicate SwapsTo(p: Pool, q: Pool, order: SwapTokensOrder, x: nat, y: nat, special: nat, settings: FeeSettings,
                          routes: seq<Route>, collector: bool)
    requires y <= ReserveOut(p, order) && SettingsOk(settings) && special <= MAX_PERCENTAGE
  {
    var fee := FeeOn(x, settings, special);
    var (cut, slice) := FeeParts(fee, settings);
    var swapped := Swapped(p, order, x - fee, y);
    && IsFeeOn(fee, x, settings, special) && AreFeeParts(cut, slice, fee, settings)
    && CanSendFee(swapped, order, fee, settings, routes, collector)
    && q == AfterFee(swapped, order, fee, settings, routes, collector)
  }

  /** Adding liquidity and removing at once all that was minted for it never returns more of either token than was
      used. */
  method AddLiquidityThenRemove(pair: Pair, first: nat, second: nat) returns (used: (nat, nat),
                                back: Result<(nat, nat)>)
    requires pair.Valid() && first > 0 && second > 0
    modifies pair`firstTokenReserve, pair`secondTokenReserve, pair`lpTokenSupply, pair`balance, pair`history
    ensures pair.Valid()
    ensures used.0 <= first && used.1 <= second
    ensures back.Success? ==> back.value.0 <= used.0 && back.value.1 <= used.1
  {
    hide NotDiluted, IsRun, OptimalAmounts, Share, EarnsAtMost;
    ghost var p := pair.Pool();
    var added;
    added, used := pair.AddLiquidity(first, second, 1, 1);
    if added.Failure? || added.value == 0 {
      return used, Failure;
    }
    if p.supply == 0 {
      ShareBelow(added.value, pair.firstTokenReserve, pair.lpTokenSupply);
      ShareBelow(added.value, pair.secondTokenReserve, pair.lpTokenSupply);
    } else {
      AddThenRemove(p, used.0, used.1, added.value);
    }
    back := pair.RemoveLiquidity(added.value, 1, 1);
  }
}
