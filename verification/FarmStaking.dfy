/** What the staking farm owes against what it holds, as values. */
module FarmBooks {
  import opened Chain
  import opened Arith
  import opened Units
  import opened FarmTokens
  import opened RewardSlices

  const BLOCKS_IN_YEAR: nat := 5_256_000

  /** The stored counters, with the rewards owed to boosted claims, those paid out so far, and those a lost write still
      counts in the reserve after they were paid. */
  datatype Books = Books(farmTokenSupply: int, rewardReserve: int, rewardPerShare: nat, accumulatedRewards: int,
                         boostedOwed: int, paidOut: int, overstated: int)

  ghost predicate BooksOk(b: Books, constant: nat, rewardCapacity: nat, stakes: multiset<nat>) {
    && constant > 0
    && b.farmTokenSupply == |stakes|
    && b.accumulatedRewards <= rewardCapacity && 0 <= b.boostedOwed && 0 <= b.overstated
    && b.rewardReserve + b.paidOut == b.accumulatedRewards + b.overstated
    && Solvent(stakes, b.rewardPerShare, constant, b.rewardReserve - b.overstated - b.boostedOwed)
  }

  /** The rewards of the blocks since the last settlement. */
  datatype Accrual = Accrual(total: nat, base: nat, boosted: nat, increase: nat)

  function Min(a: nat, b: nat): nat {
    if a <= b then a else b
  }

  function AmountAprBounded(amount: nat, maxApr: nat): nat {
    FloorNat(amount * maxApr, MAX_PERCENT);
    FloorNat(amount * maxApr / MAX_PERCENT, BLOCKS_IN_YEAR);
    amount * maxApr / MAX_PERCENT / BLOCKS_IN_YEAR
  }

  lemma FloorOfFloor(n: nat, d: nat, e: nat)
    requires 0 < d && 0 < e
    ensures IsFloor(n / d / e, n, d * e)
  {
    var q := n / d;
    var r := q / e;
    FloorOf(n, d);
    FloorOf(q, e);
    MulLe(r * e, q, d);
    MulLe(q + 1, (r + 1) * e, d);
    assert r * (d * e) == r * e * d && (r + 1) * (d * e) == (r + 1) * e * d;
  }

  /** Over a year of blocks the bound is the annual percentage of the amount: per block, it is a year's part of it,
      rounded down. */
  lemma AprBound(amount: nat, maxApr: nat, blocks: nat)
    requires blocks <= BLOCKS_IN_YEAR
    ensures IsFloor(AmountAprBounded(amount, maxApr), amount * maxApr, MAX_PERCENT * BLOCKS_IN_YEAR)
    ensures AmountAprBounded(amount, maxApr) * blocks * MAX_PERCENT <= amount * maxApr
  {
    var perYear := amount * maxApr / MAX_PERCENT;
    var r: int := AmountAprBounded(amount, maxApr);
    FloorOfFloor(amount * maxApr, MAX_PERCENT, BLOCKS_IN_YEAR);
    FloorOf(amount * maxApr, MAX_PERCENT);
    FloorOf(perYear, BLOCKS_IN_YEAR);
    MulLe(blocks, BLOCKS_IN_YEAR, r);
  }

  /** The rewards of the blocks since the last settlement: those the rate yields, bounded by the annual percentage of
      the stakes, and by what is left of the capacity. */
  ghost function NewRewards(blocks: int, perBlock: nat, farmTokenSupply: nat, maxApr: nat, remaining: nat): (r: nat)
    ensures r <= remaining && (blocks <= 0 || farmTokenSupply == 0 ==> r == 0)
  {
    if blocks <= 0 then 0 else
      MulNat(perBlock, blocks);
      MulNat(AmountAprBounded(farmTokenSupply, maxApr), blocks);
      Min(Min(perBlock * blocks, AmountAprBounded(farmTokenSupply, maxApr) * blocks), remaining)
  }

  /** How the rewards of one settlement divide. */
  ghost predicate IsAccrual(d: Accrual, total: nat, farmTokenSupply: int, constant: nat, boostedPercentage: nat) {
    && d.total == total
    && d.base + d.boosted == d.total
    && IsFloor(d.boosted, d.total * boostedPercentage, MAX_PERCENT)
    && (if farmTokenSupply > 0 then IsFloor(d.increase, d.base * constant, farmTokenSupply) else d.increase == 0)
  }

  ghost function Accrued(b: Books, d: Accrual): Books {
    b.(rewardReserve := b.rewardReserve + d.total, accumulatedRewards := b.accumulatedRewards + d.total,
       boostedOwed := b.boostedOwed + d.boosted, rewardPerShare := b.rewardPerShare + d.increase)
  }

  lemma AccrualKeepsBooks(b: Books, d: Accrual, constant: nat, capacity: nat, boostedPercentage: nat,
                          stakes: multiset<nat>)
    requires BooksOk(b, constant, capacity, stakes)
    requires IsAccrual(d, d.total, b.farmTokenSupply, constant, boostedPercentage)
    requires b.accumulatedRewards + d.total <= capacity
    ensures BooksOk(Accrued(b, d), constant, capacity, stakes)
  {
    hide Solvent, IsFloor;
    var reserve := b.rewardReserve - b.overstated - b.boostedOwed;
    if b.farmTokenSupply > 0 {
      FloorExact(d.increase, d.base * constant, b.farmTokenSupply);
      AccrualSolvent(stakes, b.rewardPerShare, constant, reserve, d.base);
    } else {
      assert stakes == multiset{};
      ReserveNotNegative(stakes, b.rewardPerShare, constant, reserve);
      NothingStakedSolvent(b.rewardPerShare, constant, reserve + d.base);
    }
  }

  lemma NothingAccrued(b: Books, constant: nat, boostedPercentage: nat)
    ensures IsAccrual(Accrual(0, 0, 0, 0), 0, b.farmTokenSupply, constant, boostedPercentage)
    ensures Accrued(b, Accrual(0, 0, 0, 0)) == b
  {
    assert 0 * boostedPercentage == 0 && 0 * constant == 0;
  }

  lemma ReserveNotNegative(stakes: multiset<nat>, rps: nat, constant: nat, reserve: int)
    requires Solvent(stakes, rps, constant, reserve)
    ensures 0 <= reserve
  {
  }

  function BaseReward(p: FarmPayment, rewardPerShare: nat, constant: nat): nat
    requires constant > 0
  {
    if rewardPerShare > p.attributes.rewardPerShare then
      MulNat(p.amount, rewardPerShare - p.attributes.rewardPerShare);
      FloorNat(p.amount * (rewardPerShare - p.attributes.rewardPerShare), constant);
      p.amount * (rewardPerShare - p.attributes.rewardPerShare) / constant
    else
      0
  }

  /** What a position has earned since it was entered: never a negative gain, and rounded down. */
  ghost predicate IsBaseReward(r: int, p: FarmPayment, rewardPerShare: int, constant: nat) {
    && p.attributes.rewardPerShare <= rewardPerShare
    && IsFloor(r, p.amount * (rewardPerShare - p.attributes.rewardPerShare), constant)
  }

  lemma BaseRewardIs(p: FarmPayment, rewardPerShare: nat, constant: nat)
    requires constant > 0 && p.attributes.rewardPerShare <= rewardPerShare
    ensures IsBaseReward(BaseReward(p, rewardPerShare, constant), p, rewardPerShare, constant)
  {
    FloorOf(p.amount * (rewardPerShare - p.attributes.rewardPerShare), constant);
  }

  ghost function Paid(b: Books, base: int, boosted: int): Books {
    b.(rewardReserve := b.rewardReserve - base - boosted, boostedOwed := b.boostedOwed - boosted,
       paidOut := b.paidOut + base + boosted)
  }

  /** Every reward a position has earned is in the reserve; paying it, and boosted rewards that are owed, leaves the
      rest covered. */
  lemma RewardsArePayable(b: Books, constant: nat, capacity: nat, stakes: multiset<nat>, p: FarmPayment, boosted: nat)
    requires BooksOk(b, constant, capacity, stakes) && p.Stakes() <= stakes && p.amount > 0 && boosted <= b.boostedOwed
    ensures IsBaseReward(BaseReward(p, b.rewardPerShare, constant), p, b.rewardPerShare, constant)
    ensures var base := BaseReward(p, b.rewardPerShare, constant);
            && base + boosted <= b.rewardReserve - b.overstated
            && Solvent(stakes - p.Stakes(), b.rewardPerShare, constant,
                       b.rewardReserve - b.overstated - b.boostedOwed - base)
  {
    hide Solvent, Pile;
    var reserve := b.rewardReserve - b.overstated - b.boostedOwed;
    PaidSolvent(stakes, b.rewardPerShare, constant, reserve, p.amount, p.attributes.rewardPerShare);
    BaseRewardIs(p, b.rewardPerShare, constant);
    if b.rewardPerShare == p.attributes.rewardPerShare {
      FloorExact(0, p.amount * 0, constant);
    }
  }

  lemma BoostedArePayable(b: Books, constant: nat, capacity: nat, stakes: multiset<nat>, boosted: nat)
    requires BooksOk(b, constant, capacity, stakes) && boosted <= b.boostedOwed
    ensures boosted <= b.rewardReserve && BooksOk(Paid(b, 0, boosted), constant, capacity, stakes)
  {
    hide Owed, AllAtMost;
  }

  /** Tokens burned against one token minted. */
  ghost function Exchanged(m: multiset<nat>, gone: multiset<nat>, amount: nat, u: nat): multiset<nat> {
    m - gone + Pile(amount, u)
  }

  lemma ExchangedSize(m: multiset<nat>, gone: multiset<nat>, amount: nat, u: nat)
    requires gone <= m
    ensures |gone| <= |m| && |Exchanged(m, gone, amount, u)| == |m| - |gone| + amount
  {
    hide Worth, Pile;
    WorthMinus(m, gone, 0);
    WorthPile(amount, u, 0);
    WorthPlus(m - gone, Pile(amount, u), 0);
  }

  ghost function Without(m: multiset<nat>, gone: multiset<nat>): multiset<nat> {
    m - gone
  }

  /** Burning the first of several tokens, and then the rest against the new one. */
  lemma FirstTaken(stakes: multiset<nat>, ps: seq<FarmPayment>, amount: nat, u: nat)
    requires ps != [] && StakesOf(ps) <= stakes
    ensures ps[0].Stakes() <= stakes && StakesOf(ps[1..]) <= Without(stakes, ps[0].Stakes())
    ensures |StakesOf(ps)| == ps[0].amount + |StakesOf(ps[1..])|
    ensures Exchanged(Without(stakes, ps[0].Stakes()), StakesOf(ps[1..]), amount, u)
         == Exchanged(stakes, StakesOf(ps), amount, u)
  {
    hide Pile, StakesOf;
    FirstAndRest(ps);
    assert stakes - ps[0].Stakes() - StakesOf(ps[1..]) == stakes - StakesOf(ps);
  }

  lemma PaymentSize(p: FarmPayment)
    ensures |p.Stakes()| == p.amount == |p.Owners()|
  {
    WorthPile(p.amount, p.attributes.rewardPerShare, 0);
    WorthPile(p.amount, p.attributes.originalOwner, 0);
  }

  /** Claiming moves a position to the current rate, possibly to another amount. */
  lemma ClaimKeepsBooks(b: Books, constant: nat, capacity: nat, stakes: multiset<nat>, p: FarmPayment, boosted: nat,
                        newAmount: nat, base: nat)
    requires BooksOk(b, constant, capacity, stakes) && p.Stakes() <= stakes && p.amount > 0 && boosted <= b.boostedOwed
    requires base == BaseReward(p, b.rewardPerShare, constant)
    ensures IsBaseReward(base, p, b.rewardPerShare, constant)
    ensures base + boosted <= b.rewardReserve && p.amount <= b.farmTokenSupply
    ensures BooksOk(Paid(b, base, boosted).(farmTokenSupply := b.farmTokenSupply - p.amount + newAmount), constant,
                    capacity, Exchanged(stakes, p.Stakes(), newAmount, b.rewardPerShare))
  {
    hide Solvent, Pile, BaseReward;
    RewardsArePayable(b, constant, capacity, stakes, p, boosted);
    EnteredSolvent(stakes - p.Stakes(), b.rewardPerShare, constant,
                   b.rewardReserve - b.overstated - b.boostedOwed - base, newAmount);
    PaymentSize(p);
    ExchangedSize(stakes, p.Stakes(), newAmount, b.rewardPerShare);
  }

  /** Exiting takes the position out. */
  lemma ExitKeepsBooks(b: Books, constant: nat, capacity: nat, stakes: multiset<nat>, p: FarmPayment, boosted: nat,
                       base: nat)
    requires BooksOk(b, constant, capacity, stakes) && p.Stakes() <= stakes && p.amount > 0 && boosted <= b.boostedOwed
    requires base == BaseReward(p, b.rewardPerShare, constant)
    ensures base + boosted <= b.rewardReserve && p.amount <= b.farmTokenSupply
    ensures BooksOk(Paid(b, base, boosted).(farmTokenSupply := b.farmTokenSupply - p.amount), constant, capacity,
                    Without(stakes, p.Stakes()))
  {
    hide BooksOk, BaseReward;
    ClaimKeepsBooks(b, constant, capacity, stakes, p, boosted, 0, base);
    assert Exchanged(stakes, p.Stakes(), 0, b.rewardPerShare) == Without(stakes, p.Stakes());
  }

  /** Merging further tokens into one the farm already counts. */
  lemma MergeKeepsBooks(b: Books, constant: nat, capacity: nat, stakes: multiset<nat>, base: Attributes,
                        ps: seq<FarmPayment>)
    requires BooksOk(b, constant, capacity, stakes) && Payable(ps) && base.currentFarmAmount > 0
    requires Pile(base.currentFarmAmount, base.rewardPerShare) + StakesOf(ps) <= stakes
    ensures var m := MergedAll(base, ps, |ps|);
            && m.currentFarmAmount == base.currentFarmAmount + |StakesOf(ps)|
            && BooksOk(b, constant, capacity,
                 Exchanged(stakes, Pile(base.currentFarmAmount, base.rewardPerShare) + StakesOf(ps),
                           m.currentFarmAmount, m.rewardPerShare))
  {
    hide Solvent, Pile, StakesOf, MergedAll, Worth;
    var m := MergedAll(base, ps, |ps|);
    var basePile := Pile(base.currentFarmAmount, base.rewardPerShare);
    MergedSolvent(stakes, b.rewardPerShare, constant, b.rewardReserve - b.overstated - b.boostedOwed, base, ps);
    WorthPile(base.currentFarmAmount, base.rewardPerShare, 0);
    WorthPlus(basePile, StakesOf(ps), 0);
    ExchangedSize(stakes, basePile + StakesOf(ps), m.currentFarmAmount, m.rewardPerShare);
  }

  /** New units at the current rate, merged with tokens brought along. */
  lemma EnterKeepsBooks(b: Books, constant: nat, capacity: nat, stakes: multiset<nat>, base: Attributes,
                        ps: seq<FarmPayment>, m: Attributes)
    requires BooksOk(b, constant, capacity, stakes) && Payable(ps) && StakesOf(ps) <= stakes
    requires base.currentFarmAmount > 0 && base.rewardPerShare == b.rewardPerShare && m == MergedAll(base, ps, |ps|)
    ensures m.currentFarmAmount == base.currentFarmAmount + |StakesOf(ps)|
    ensures BooksOk(b.(farmTokenSupply := b.farmTokenSupply + base.currentFarmAmount), constant, capacity,
                    Exchanged(stakes, StakesOf(ps), m.currentFarmAmount, m.rewardPerShare))
  {
    hide Solvent, Pile, Worth, MergedAll, StakesOf;
    var pile := Pile(base.currentFarmAmount, base.rewardPerShare);
    EnteredSolvent(stakes, b.rewardPerShare, constant, b.rewardReserve - b.overstated - b.boostedOwed,
                   base.currentFarmAmount);
    WorthPlus(stakes, pile, 0);
    WorthPile(base.currentFarmAmount, b.rewardPerShare, 0);
    assert pile + StakesOf(ps) <= stakes + pile && stakes + pile - (pile + StakesOf(ps)) == stakes - StakesOf(ps);
    MergeKeepsBooks(b.(farmTokenSupply := b.farmTokenSupply + base.currentFarmAmount), constant, capacity,
                    stakes + pile, base, ps);
  }

  /** A position with its rewards added to it, merged with the other tokens paid. */
  lemma CompoundKeepsBooks(b: Books, constant: nat, capacity: nat, stakes: multiset<nat>, ps: seq<FarmPayment>,
                           boosted: nat, reward: nat, base: Attributes, m: Attributes)
    requires BooksOk(b, constant, capacity, stakes) && ps != [] && Payable(ps) && StakesOf(ps) <= stakes
    requires boosted <= b.boostedOwed
    requires reward == BaseReward(ps[0], b.rewardPerShare, constant)
    requires base.rewardPerShare == b.rewardPerShare && base.currentFarmAmount == ps[0].amount + reward + boosted
    requires m == MergedAll(base, ps[1..], |ps| - 1)
    ensures reward + boosted <= b.rewardReserve && m.currentFarmAmount == |StakesOf(ps)| + reward + boosted
    ensures BooksOk(Paid(b, reward, boosted).(farmTokenSupply := b.farmTokenSupply + reward + boosted), constant,
                    capacity, Exchanged(stakes, StakesOf(ps), m.currentFarmAmount, m.rewardPerShare))
  {
    hide BooksOk, BaseReward, Pile, Worth, MergedAll, StakesOf, Exchanged, Without;
    var p := ps[0];
    var rest := Without(stakes, p.Stakes());
    FirstTaken(stakes, ps, m.currentFarmAmount, m.rewardPerShare);
    ExitKeepsBooks(b, constant, capacity, stakes, p, boosted, reward);
    EnterKeepsBooks(Paid(b, reward, boosted).(farmTokenSupply := b.farmTokenSupply - p.amount), constant, capacity,
                    rest, base, ps[1..], m);
  }

  lemma {:induction false} FirstAndRest(ps: seq<FarmPayment>)
    requires ps != []
    ensures StakesOf(ps) == ps[0].Stakes() + StakesOf(ps[1..]) && |StakesOf(ps)| == ps[0].amount + |StakesOf(ps[1..])|
    ensures ps[0].Stakes() <= StakesOf(ps)
  {
    hide Pile, Worth;
    if |ps| > 1 {
      FirstAndRest(ps[..|ps| - 1]);
      assert ps[..|ps| - 1][1..] == ps[1..][..|ps| - 2];
    }
    PaymentSize(ps[0]);
    WorthPlus(ps[0].Stakes(), StakesOf(ps[1..]), 0);
  }

  lemma PositionIs(positions: map<Address, nat>, owners: multiset<Address>, user: Address)
    requires PositionsOk(positions, owners)
    ensures owners[user] == if user in positions then positions[user] else 0
  {
  }

  lemma OtherAmount(before: multiset<Address>, p: FarmPayment, user: Address, newAmount: nat)
    requires p.Owners() <= before
    ensures var owners, after := Exchanged(before, p.Owners(), p.amount, user), Exchanged(before, p.Owners(),
                                           newAmount, user);
            && p.amount <= owners[user] && |after| == |owners| - p.amount + newAmount
            && after == owners[user := owners[user] - p.amount + newAmount]
  {
    PaymentSize(p);
    ExchangedSize(before, p.Owners(), p.amount, user);
    ExchangedSize(before, p.Owners(), newAmount, user);
    OtherPile(before - p.Owners(), user, p.amount, newAmount);
  }

  lemma OtherPile(rest: multiset<Address>, user: Address, amount: nat, newAmount: nat)
    ensures var m := rest + Pile(amount, user);
            amount <= m[user] && rest + Pile(newAmount, user) == m[user := m[user] - amount + newAmount]
  {
  }

  lemma OwnersLeft(owners: multiset<Address>, p: FarmPayment)
    requires p.Owners() <= owners
    ensures |Without(owners, p.Owners())| == |owners| - p.amount
  {
    PaymentSize(p);
    WorthMinus(owners, p.Owners(), 0);
  }

  /** A settlement that writes its own reserve over one a boosted reward was taken out of. */
  ghost function Overwritten(b: Books, d: Accrual, boosted: int): Books {
    Paid(Accrued(b, d), 0, boosted).(rewardReserve := b.rewardReserve + d.total, overstated := b.overstated + boosted)
  }

  lemma OverwrittenKeepsBooks(b: Books, d: Accrual, constant: nat, capacity: nat, stakes: multiset<nat>, boosted: nat)
    requires BooksOk(b, constant, capacity, stakes) && BooksOk(Accrued(b, d), constant, capacity, stakes)
    requires boosted <= b.boostedOwed
    ensures boosted <= b.rewardReserve && BooksOk(Overwritten(b, d, boosted), constant, capacity, stakes)
  {
    hide Owed, AllAtMost;
  }

  lemma OneToken(p: FarmPayment)
    ensures StakesOf([p]) == p.Stakes() && OwnersOf([p]) == p.Owners() && |StakesOf([p])| == p.amount
  {
    assert [p][..0] == [];
    PaymentSize(p);
  }

  /** The owners once `ps` were handed to `user`, and with `amount` more tokens of that user. */
  lemma OwnersTakenOver(owners: multiset<Address>, ps: seq<FarmPayment>, user: Address, amount: nat)
    requires OwnersOf(ps) <= owners
    ensures |StakesOf(ps)| == |OwnersOf(ps)| <= |owners|
    ensures owners - OwnersOf(ps) + Pile(|OwnersOf(ps)|, user) + Pile(amount, user)
         == Exchanged(owners, OwnersOf(ps), |StakesOf(ps)| + amount, user)
    ensures |Exchanged(owners, OwnersOf(ps), |StakesOf(ps)| + amount, user)| == |owners| + amount
  {
    hide Worth, OwnersOf, StakesOf;
    AsManyOwners(ps);
    ExchangedSize(owners, OwnersOf(ps), |OwnersOf(ps)| + amount, user);
  }

  lemma EmptyBooksOk(constant: nat)
    requires constant > 0
    ensures BooksOk(Books(0, 0, 0, 0, 0, 0, 0), constant, 0, multiset{})
  {
    NothingStakedSolvent(0, constant, 0);
  }

  /** What the calls of claimBoostedRewards, each given by what it paid, left in the reserve. */
  ghost function Lost(boostedClaims: seq<nat>): nat {
    if boostedClaims == [] then 0 else Lost(boostedClaims[..|boostedClaims| - 1]) + boostedClaims[|boostedClaims| - 1]
  }

  lemma OneMoreLost(boostedClaims: seq<nat>, boosted: nat)
    ensures Lost(boostedClaims + [boosted]) == Lost(boostedClaims) + boosted
  {
    assert (boostedClaims + [boosted])[..|boostedClaims|] == boostedClaims;
  }

  lemma {:induction false} NothingLost(boostedClaims: seq<nat>)
    ensures Lost(boostedClaims) == 0 <==> forall k :: 0 <= k < |boostedClaims| ==> boostedClaims[k] == 0
  {
    if boostedClaims != [] {
      NothingLost(boostedClaims[..|boostedClaims| - 1]);
    }
  }

  /** Over a run the reserve counts too much exactly what the calls of claimBoostedRewards paid: it is the accumulated
      less the paid rewards iff none of them paid anything. */
  lemma ReserveExact(b: Books, constant: nat, capacity: nat, stakes: multiset<nat>, boostedClaims: seq<nat>)
    requires BooksOk(b, constant, capacity, stakes) && b.overstated == Lost(boostedClaims)
    ensures b.rewardReserve == b.accumulatedRewards - b.paidOut + Lost(boostedClaims)
    ensures b.rewardReserve == b.accumulatedRewards - b.paidOut <==>
            forall k :: 0 <= k < |boostedClaims| ==> boostedClaims[k] == 0
    ensures b.paidOut <= b.accumulatedRewards <= capacity
  {
    hide Owed, AllAtMost;
    NothingLost(boostedClaims);
  }
}

/** The endpoints of farm-staking, composed of the base implementation in common/modules/farm/farm_base_impl. */
module FarmStaking {
  import opened Chain
  import opened Wrappers
  import opened Arith
  import opened Units
  import opened FarmTokens
  import opened RewardSlices
  import opened FarmBooks

  /** Loaded when an endpoint starts, written back when it ends. */
  class StorageCache {
    var farmTokenSupply: nat
    var rewardReserve: nat
    var rewardPerShare: nat

    constructor (farmTokenSupply: nat, rewardReserve: nat, rewardPerShare: nat)
      ensures this.farmTokenSupply == farmTokenSupply && this.rewardReserve == rewardReserve
      ensures this.rewardPerShare == rewardPerShare
    {
      this.farmTokenSupply, this.rewardReserve, this.rewardPerShare := farmTokenSupply, rewardReserve, rewardPerShare;
    }
  }

  method MergeAttributesFromPayments(baseAttributes: Attributes, payments: seq<FarmPayment>) returns (r: Attributes)
    requires Payable(payments) && baseAttributes.currentFarmAmount > 0
    ensures r == MergedAll(baseAttributes, payments, |payments|)
  {
    hide MergeWith;
    r := baseAttributes;
    for i := 0 to |payments|
      invariant r == MergedAll(baseAttributes, payments, i)
    {
      var attributes := IntoPart(payments[i].attributes, payments[i].amount);
      r := MergeWith(r, attributes);
    }
  }

  class StakingFarm {
    const divisionSafetyConstant: nat
    var farmTokenSupply: nat
    var rewardReserve: nat
    var rewardPerShare: nat
    var accumulatedRewards: nat
    var rewardCapacity: nat
    var perBlockRewardAmount: nat
    var maxAnnualPercentageRewards: nat
    var produceRewardsEnabled: bool
    var boostedYieldsRewardsPercentage: nat
    var lastRewardBlockNonce: nat
    var blockNonce: nat
    var userTotalFarmPosition: map<Address, nat>
    ghost var stakes: multiset<nat>
    ghost var owners: multiset<Address>
    ghost var boostedOwed: nat
    ghost var paidOut: nat
    /** What each call of claimBoostedRewards paid. */
    ghost var boostedClaims: seq<nat>

    ghost function Stored(): Books
      reads this
    {
      Books(farmTokenSupply, rewardReserve, rewardPerShare, accumulatedRewards, boostedOwed, paidOut,
            Lost(boostedClaims))
    }

    /** The books as they will be once the cache is written back. */
    ghost function Book(cache: StorageCache): Books
      reads this, cache
    {
      Books(cache.farmTokenSupply, cache.rewardReserve, cache.rewardPerShare, accumulatedRewards, boostedOwed, paidOut,
            Lost(boostedClaims))
    }

    ghost predicate Valid()
      reads this
    {
      && BooksOk(Stored(), divisionSafetyConstant, rewardCapacity, stakes)
      && PositionsOk(userTotalFarmPosition, owners) && |owners| == farmTokenSupply
      && boostedYieldsRewardsPercentage <= MAX_PERCENT
    }

    ghost function RewardDue(): nat
      requires accumulatedRewards <= rewardCapacity
      reads this
    {
      NewRewards(blockNonce - lastRewardBlockNonce, if produceRewardsEnabled then perBlockRewardAmount else 0,
                 farmTokenSupply, maxAnnualPercentageRewards, rewardCapacity - accumulatedRewards)
    }

    constructor (divisionSafetyConstant: nat, maxApr: nat)
      requires divisionSafetyConstant > 0 && maxApr > 0
      ensures this.divisionSafetyConstant == divisionSafetyConstant
      ensures Valid() && Stored() == Books(0, 0, 0, 0, 0, 0, 0) && rewardCapacity == 0 && stakes == multiset{} == owners
      ensures perBlockRewardAmount == 0 && maxAnnualPercentageRewards == maxApr && !produceRewardsEnabled
      ensures boostedYieldsRewardsPercentage == 0 && lastRewardBlockNonce == 0 == blockNonce && boostedClaims == []
    {
      hide BooksOk;
      this.divisionSafetyConstant, maxAnnualPercentageRewards := divisionSafetyConstant, maxApr;
      farmTokenSupply, rewardReserve, rewardPerShare, accumulatedRewards, rewardCapacity := 0, 0, 0, 0, 0;
      perBlockRewardAmount, produceRewardsEnabled, boostedYieldsRewardsPercentage := 0, false, 0;
      lastRewardBlockNonce, blockNonce, userTotalFarmPosition := 0, 0, map[];
      stakes, owners, boostedOwed, paidOut, boostedClaims := multiset{}, multiset{}, 0, 0, [];
      EmptyBooksOk(divisionSafetyConstant);
    }

    method AdvanceBlock(nonce: nat)
      requires Valid() && blockNonce <= nonce
      modifies this`blockNonce
      ensures Valid() && blockNonce == nonce
    {
      blockNonce := nonce;
    }

    method MintPerBlockRewards() returns (minted: nat)
      requires accumulatedRewards <= rewardCapacity
      modifies this`lastRewardBlockNonce
      ensures var blocks := blockNonce - old(lastRewardBlockNonce);
              var produced := blocks * if produceRewardsEnabled then perBlockRewardAmount else 0;
              var perBlock := AmountAprBounded(farmTokenSupply, maxAnnualPercentageRewards);
              var bounded := blocks * perBlock;
              && IsFloor(perBlock, farmTokenSupply * maxAnnualPercentageRewards, MAX_PERCENT * BLOCKS_IN_YEAR)
              && if blocks <= 0 then minted == 0
              else minted <= produced && minted <= bounded && (minted == produced || minted == bounded)
      ensures Min(minted, rewardCapacity - accumulatedRewards) == old(RewardDue())
      ensures farmTokenSupply == 0 ==> minted == 0
      ensures lastRewardBlockNonce
           == if old(lastRewardBlockNonce) <= blockNonce then blockNonce else old(lastRewardBlockNonce)
    {
      AprBound(farmTokenSupply, maxAnnualPercentageRewards, 0);
      if blockNonce <= lastRewardBlockNonce {
        return 0;
      }
      var blocks := blockNonce - lastRewardBlockNonce;
      MulNat(AmountAprBounded(farmTokenSupply, maxAnnualPercentageRewards), blocks);
      var perBlock := if produceRewardsEnabled then perBlockRewardAmount else 0;
      MulNat(perBlock, blocks);
      var unbounded: nat := perBlock * blocks;
      var bounded: nat := AmountAprBounded(farmTokenSupply, maxAnnualPercentageRewards) * blocks;
      lastRewardBlockNonce := blockNonce;
      return Min(unbounded, bounded);
    }

    method TakeRewardSlice(fullReward: nat) returns (baseFarm: nat, boostedFarm: nat)
      requires boostedYieldsRewardsPercentage <= MAX_PERCENT
      modifies this`boostedOwed
      ensures baseFarm + boostedFarm == fullReward
      ensures IsFloor(boostedFarm, fullReward * boostedYieldsRewardsPercentage, MAX_PERCENT)
      ensures boostedOwed == old(boostedOwed) + boostedFarm
    {
      boostedFarm := BoostedCut(fullReward, boostedYieldsRewardsPercentage);
      boostedOwed := boostedOwed + boostedFarm;
      baseFarm := fullReward - boostedFarm;
    }

    /** Brings the rate up to date: whatever accrues is covered by what the reserve gains. */
    method GenerateAggregatedRewards() returns (cache: StorageCache, ghost due: Accrual)
      requires BooksOk(Stored(), divisionSafetyConstant, rewardCapacity, stakes)
      requires boostedYieldsRewardsPercentage <= MAX_PERCENT
      modifies this`accumulatedRewards, this`lastRewardBlockNonce, this`boostedOwed
      ensures fresh(cache)
      ensures IsAccrual(due, old(RewardDue()), old(farmTokenSupply), divisionSafetyConstant,
                        old(boostedYieldsRewardsPercentage))
      ensures Book(cache) == Accrued(old(Stored()), due)
      ensures BooksOk(Book(cache), divisionSafetyConstant, rewardCapacity, stakes)
      ensures lastRewardBlockNonce
           == if old(lastRewardBlockNonce) <= blockNonce then blockNonce else old(lastRewardBlockNonce)
    {
      hide NewRewards, Solvent, IsFloor, Lost;
      ghost var before := Stored();
      cache := new StorageCache(farmTokenSupply, rewardReserve, rewardPerShare);
      var remainingRewards := rewardCapacity - accumulatedRewards;
      var totalReward := MintPerBlockRewards();
      totalReward := Min(totalReward, remainingRewards);
      due := Accrual(0, 0, 0, 0);
      if totalReward == 0 {
        NothingAccrued(before, divisionSafetyConstant, boostedYieldsRewardsPercentage);
        return;
      }
      cache.rewardReserve := cache.rewardReserve + totalReward;
      accumulatedRewards := accumulatedRewards + totalReward;
      var base, boosted := TakeRewardSlice(totalReward);
      due := Accrual(totalReward, base, boosted, 0);
      if cache.farmTokenSupply > 0 {
        FloorOf(base * divisionSafetyConstant, cache.farmTokenSupply);
        MulNat(base, divisionSafetyConstant);
        FloorNat(base * divisionSafetyConstant, cache.farmTokenSupply);
        var increase: nat := base * divisionSafetyConstant / cache.farmTokenSupply;
        cache.rewardPerShare := cache.rewardPerShare + increase;
        due := due.(increase := increase);
      }
      AccrualKeepsBooks(before, due, divisionSafetyConstant, rewardCapacity, boostedYieldsRewardsPercentage, stakes);
    }

    /** Writes the cache back; `newStakes` are the units after the tokens burned and minted. */
    method Commit(cache: StorageCache, ghost newStakes: multiset<nat>)
      requires BooksOk(Book(cache), divisionSafetyConstant, rewardCapacity, newStakes)
      requires PositionsOk(userTotalFarmPosition, owners) && |owners| == cache.farmTokenSupply
      requires boostedYieldsRewardsPercentage <= MAX_PERCENT
      modifies this`farmTokenSupply, this`rewardReserve, this`rewardPerShare, this`stakes
      ensures Valid() && Stored() == Book(cache) && stakes == newStakes
    {
      hide BooksOk, PositionsOk;
      farmTokenSupply, rewardReserve := cache.farmTokenSupply, cache.rewardReserve;
      rewardPerShare := cache.rewardPerShare;
      stakes := newStakes;
    }

    // ---- User positions ----

    method IncreaseUserFarmPosition(user: Address, amount: nat)
      requires PositionsOk(userTotalFarmPosition, owners)
      modifies this`userTotalFarmPosition, this`owners
      ensures PositionsOk(userTotalFarmPosition, owners) && owners == old(owners) + Pile(amount, user)
    {
      var position := if user in userTotalFarmPosition then userTotalFarmPosition[user] else 0;
      PositionSet(userTotalFarmPosition, owners, user, position + amount);
      MoreOwned(owners, user, amount);
      userTotalFarmPosition := userTotalFarmPosition[user := position + amount];
      owners := owners + Pile(amount, user);
    }

    method DecreaseUserFarmPosition(farmPosition: FarmPayment)
      requires PositionsOk(userTotalFarmPosition, owners) && farmPosition.Owners() <= owners
      modifies this`userTotalFarmPosition, this`owners
      ensures PositionsOk(userTotalFarmPosition, owners) && owners == Without(old(owners), farmPosition.Owners())
    {
      var user := farmPosition.attributes.originalOwner;
      var position := if user in userTotalFarmPosition then userTotalFarmPosition[user] else 0;
      LessOwned(owners, user, farmPosition.amount);
      PositionSet(userTotalFarmPosition, owners, user, owners[user] - farmPosition.amount);
      owners := owners - farmPosition.Owners();
      if position > farmPosition.amount {
        userTotalFarmPosition := userTotalFarmPosition[user := position - farmPosition.amount];
      } else {
        userTotalFarmPosition := userTotalFarmPosition - {user};
      }
    }

    /** Farm tokens received from somebody else count for the user who brings them. */
    method CheckAndUpdateUserFarmPosition(user: Address, farmPositions: seq<FarmPayment>)
      requires PositionsOk(userTotalFarmPosition, owners) && OwnersOf(farmPositions) <= owners
      modifies this`userTotalFarmPosition, this`owners
      ensures PositionsOk(userTotalFarmPosition, owners)
      ensures owners == old(owners) - OwnersOf(farmPositions) + Pile(|OwnersOf(farmPositions)|, user)
    {
      hide OwnersOf, Pile, PositionsOk, Handed;
      ghost var before := owners;
      HandedStart(before, farmPositions, user);
      for i := 0 to |farmPositions|
        invariant PositionsOk(userTotalFarmPosition, owners)
        invariant owners == Handed(before, farmPositions, i, user)
      {
        HandedStep(before, farmPositions, i, user);
        if farmPositions[i].attributes.originalOwner != user {
          DecreaseUserFarmPosition(farmPositions[i]);
          IncreaseUserFarmPosition(user, farmPositions[i].amount);
        }
      }
      HandedAll(before, farmPositions, user);
    }

    // ---- Capacity and settings; every change settles first ----

    method TopUpRewards(amount: nat)
      requires Valid()
      modifies this`rewardCapacity
      ensures Valid() && rewardCapacity == old(rewardCapacity) + amount
    {
      rewardCapacity := rewardCapacity + amount;
    }

    method WithdrawRewards(withdrawAmount: nat) returns (ok: bool, ghost due: Accrual)
      requires Valid()
      modifies this`farmTokenSupply, this`rewardReserve, this`rewardPerShare, this`accumulatedRewards,
               this`lastRewardBlockNonce, this`boostedOwed, this`rewardCapacity, this`stakes
      ensures Valid()
      ensures stakes == old(stakes)
      ensures ok <==> withdrawAmount <= old(rewardCapacity - accumulatedRewards - RewardDue())
      ensures ok ==>
                rewardCapacity == old(rewardCapacity) - withdrawAmount
                && accumulatedRewards == old(accumulatedRewards + RewardDue())
      ensures ok ==> Stored() == Accrued(old(Stored()), due)
      ensures ok ==>
                IsAccrual(due, old(RewardDue()), old(farmTokenSupply), divisionSafetyConstant,
                          old(boostedYieldsRewardsPercentage))
      ensures !ok ==>
                rewardCapacity == old(rewardCapacity) && Stored() == old(Stored())
                && lastRewardBlockNonce == old(lastRewardBlockNonce)
    {
      hide NewRewards, Solvent, IsFloor, Lost;
      var accumulatedBefore, nonceBefore := accumulatedRewards, lastRewardBlockNonce;
      ghost var owedBefore := boostedOwed;
      var cache: StorageCache;
      cache, due := GenerateAggregatedRewards();
      var remainingRewards := rewardCapacity - accumulatedRewards;
      if remainingRewards < withdrawAmount {
        // the revert takes back what the settlement wrote
        accumulatedRewards, lastRewardBlockNonce, boostedOwed := accumulatedBefore, nonceBefore, owedBefore;
        return false, due;
      }
      assert rewardCapacity >= withdrawAmount;
      rewardCapacity := rewardCapacity - withdrawAmount;
      Commit(cache, stakes);
      return true, due;
    }

    /** Settles at the old settings. */
    method Settle() returns (ghost due: Accrual)
      requires Valid()
      modifies this`farmTokenSupply, this`rewardReserve, this`rewardPerShare, this`accumulatedRewards,
               this`lastRewardBlockNonce, this`boostedOwed, this`stakes
      ensures Valid() && Stored() == Accrued(old(Stored()), due) && stakes == old(stakes)
      ensures IsAccrual(due, old(RewardDue()), old(farmTokenSupply), divisionSafetyConstant,
                        old(boostedYieldsRewardsPercentage))
      ensures blockNonce <= lastRewardBlockNonce
    {
      hide NewRewards, Solvent, IsAccrual, Lost;
      var cache: StorageCache;
      cache, due := GenerateAggregatedRewards();
      Commit(cache, stakes);
    }

    method SetPerBlockRewards(perBlockAmount: nat) returns (ok: bool, ghost due: Accrual)
      requires Valid()
      modifies this`farmTokenSupply, this`rewardReserve, this`rewardPerShare, this`accumulatedRewards,
               this`lastRewardBlockNonce, this`boostedOwed, this`stakes, this`perBlockRewardAmount
      ensures Valid() && (ok <==> perBlockAmount != 0)
      ensures ok ==> perBlockRewardAmount == perBlockAmount && Stored() == Accrued(old(Stored()), due)
      ensures ok ==>
                IsAccrual(due, old(RewardDue()), old(farmTokenSupply), divisionSafetyConstant,
                          old(boostedYieldsRewardsPercentage))
      ensures ok ==> blockNonce <= lastRewardBlockNonce
      ensures stakes == old(stakes)
      ensures !ok ==> Stored() == old(Stored()) && perBlockRewardAmount == old(perBlockRewardAmount)
      ensures !ok ==> lastRewardBlockNonce == old(lastRewardBlockNonce)
    {
      hide NewRewards, Solvent, IsAccrual, Lost;
      due := Accrual(0, 0, 0, 0);
      if perBlockAmount == 0 {
        return false, due;
      }
      due := Settle();
      perBlockRewardAmount := perBlockAmount;
      ok := true;
    }

    method SetMaxApr(maxApr: nat) returns (ok: bool, ghost due: Accrual)
      requires Valid()
      modifies this`farmTokenSupply, this`rewardReserve, this`rewardPerShare, this`accumulatedRewards,
               this`lastRewardBlockNonce, this`boostedOwed, this`stakes, this`maxAnnualPercentageRewards
      ensures Valid() && (ok <==> maxApr != 0)
      ensures ok ==> maxAnnualPercentageRewards == maxApr && Stored() == Accrued(old(Stored()), due)
      ensures ok ==>
                IsAccrual(due, old(RewardDue()), old(farmTokenSupply), divisionSafetyConstant,
                          old(boostedYieldsRewardsPercentage))
      ensures ok ==> blockNonce <= lastRewardBlockNonce
      ensures stakes == old(stakes)
      ensures !ok ==> Stored() == old(Stored()) && maxAnnualPercentageRewards == old(maxAnnualPercentageRewards)
      ensures !ok ==> lastRewardBlockNonce == old(lastRewardBlockNonce)
    {
      hide NewRewards, Solvent, IsAccrual, Lost;
      due := Accrual(0, 0, 0, 0);
      if maxApr == 0 {
        return false, due;
      }
      due := Settle();
      maxAnnualPercentageRewards := maxApr;
      ok := true;
    }

    method SetBoostedYieldsRewardsPercentage(percentage: nat) returns (ok: bool, ghost due: Accrual)
      requires Valid()
      modifies this`farmTokenSupply, this`rewardReserve, this`rewardPerShare, this`accumulatedRewards,
               this`lastRewardBlockNonce, this`boostedOwed, this`stakes, this`boostedYieldsRewardsPercentage
      ensures Valid() && (ok <==> percentage <= MAX_PERCENT)
      ensures ok ==> boostedYieldsRewardsPercentage == percentage && Stored() == Accrued(old(Stored()), due)
      ensures ok ==>
                IsAccrual(due, old(RewardDue()), old(farmTokenSupply), divisionSafetyConstant,
                          old(boostedYieldsRewardsPercentage))
      ensures ok ==> blockNonce <= lastRewardBlockNonce
      ensures stakes == old(stakes)
      ensures !ok ==> Stored() == old(Stored()) && boostedYieldsRewardsPercentage == old(boostedYieldsRewardsPercentage)
      ensures !ok ==> lastRewardBlockNonce == old(lastRewardBlockNonce)
    {
      hide NewRewards, Solvent, IsAccrual, Lost;
      due := Accrual(0, 0, 0, 0);
      if percentage > MAX_PERCENT {
        return false, due;
      }
      due := Settle();
      boostedYieldsRewardsPercentage := percentage;
      ok := true;
    }

    method EndProduceRewards() returns (ghost due: Accrual)
      requires Valid()
      modifies this`farmTokenSupply, this`rewardReserve, this`rewardPerShare, this`accumulatedRewards,
               this`lastRewardBlockNonce, this`boostedOwed, this`stakes, this`produceRewardsEnabled
      ensures Valid() && !produceRewardsEnabled && Stored() == Accrued(old(Stored()), due)
      ensures IsAccrual(due, old(RewardDue()), old(farmTokenSupply), divisionSafetyConstant,
                        old(boostedYieldsRewardsPercentage))
      ensures stakes == old(stakes) && blockNonce <= lastRewardBlockNonce
    {
      hide NewRewards, Solvent, IsAccrual, Lost;
      due := Settle();
      produceRewardsEnabled := false;
    }

    /** The blocks before the start yield nothing. */
    method StartProduceRewards() returns (ok: bool)
      requires Valid()
      modifies this`produceRewardsEnabled, this`lastRewardBlockNonce
      ensures Valid() && Stored() == old(Stored())
      ensures ok <==> perBlockRewardAmount != 0 && !old(produceRewardsEnabled)
      ensures ok ==> produceRewardsEnabled && lastRewardBlockNonce == blockNonce && RewardDue() == 0
      ensures !ok ==>
                produceRewardsEnabled == old(produceRewardsEnabled) && lastRewardBlockNonce == old(lastRewardBlockNonce)
    {
      if perBlockRewardAmount == 0 || produceRewardsEnabled {
        return false;
      }
      produceRewardsEnabled, lastRewardBlockNonce := true, blockNonce;
      return true;
    }

    // ---- Staking ----

    /** The boosted rewards of a user come out of the stored reserve. */
    method ClaimOnlyBoostedPayment(boosted: nat)
      requires Valid() && boosted <= boostedOwed
      modifies this`rewardReserve, this`boostedOwed, this`paidOut
      ensures boosted <= old(rewardReserve) && Valid() && Stored() == Paid(old(Stored()), 0, boosted)
    {
      hide Solvent;
      BoostedArePayable(Stored(), divisionSafetyConstant, rewardCapacity, stakes, boosted);
      rewardReserve, boostedOwed, paidOut := rewardReserve - boosted, boostedOwed - boosted, paidOut + boosted;
    }

    /** The tokens brought along and `amount` more count for the user. */
    method TakeOver(user: Address, farmPositions: seq<FarmPayment>, amount: nat)
      requires PositionsOk(userTotalFarmPosition, owners) && OwnersOf(farmPositions) <= owners
      modifies this`userTotalFarmPosition, this`owners
      ensures PositionsOk(userTotalFarmPosition, owners) && |owners| == |old(owners)| + amount
      ensures owners == Exchanged(old(owners), OwnersOf(farmPositions), |StakesOf(farmPositions)| + amount, user)
    {
      hide OwnersOf, StakesOf, Pile, PositionsOk, Exchanged;
      CheckAndUpdateUserFarmPosition(user, farmPositions);
      IncreaseUserFarmPosition(user, amount);
      OwnersTakenOver(old(owners), farmPositions, user, amount);
    }

    /** New stakes enter at the current rate, owed nothing, and merge with the tokens brought along. */
    method EnterFarmBase(user: Address, amount: nat, additional: seq<FarmPayment>) returns (farmToken: FarmPayment,
                         ghost due: Accrual)
      requires Valid() && amount > 0
      requires Payable(additional) && StakesOf(additional) <= stakes && OwnersOf(additional) <= owners
      modifies this`farmTokenSupply, this`rewardReserve, this`rewardPerShare, this`accumulatedRewards,
               this`lastRewardBlockNonce, this`boostedOwed, this`stakes, this`userTotalFarmPosition, this`owners
      ensures Valid() && blockNonce <= lastRewardBlockNonce
      ensures IsAccrual(due, old(RewardDue()), old(farmTokenSupply), divisionSafetyConstant,
                        old(boostedYieldsRewardsPercentage))
      ensures Stored() == Accrued(old(Stored()), due).(farmTokenSupply := old(farmTokenSupply) + amount)
      ensures farmToken.attributes == MergedAll(Attributes(rewardPerShare, 0, amount, user), additional, |additional|)
      ensures farmToken.amount == farmToken.attributes.currentFarmAmount == |StakesOf(additional)| + amount
      ensures stakes
           == Exchanged(old(stakes), StakesOf(additional), farmToken.amount, farmToken.attributes.rewardPerShare)
      ensures owners == Exchanged(old(owners), OwnersOf(additional), farmToken.amount, user)
    {
      hide NewRewards, IsAccrual, BooksOk, Exchanged, StakesOf, OwnersOf, MergedAll, PositionsOk, Lost;
      TakeOver(user, additional, amount);
      var cache: StorageCache;
      cache, due := GenerateAggregatedRewards();
      var baseAttributes := Attributes(cache.rewardPerShare, 0, amount, user);
      var newAttributes := MergeAttributesFromPayments(baseAttributes, additional);
      EnterKeepsBooks(Book(cache), divisionSafetyConstant, rewardCapacity, stakes, baseAttributes, additional,
                      newAttributes);
      cache.farmTokenSupply := cache.farmTokenSupply + amount;
      farmToken := FarmPayment(newAttributes.currentFarmAmount, newAttributes);
      Commit(cache, Exchanged(stakes, StakesOf(additional), farmToken.amount, newAttributes.rewardPerShare));
    }

    method StakeFarm(user: Address, amount: nat, additional: seq<FarmPayment>, boosted: nat)
      returns (farmToken: FarmPayment, ghost due: Accrual)
      requires Valid() && amount > 0 && boosted <= boostedOwed
      requires Payable(additional) && StakesOf(additional) <= stakes && OwnersOf(additional) <= owners
      modifies this`farmTokenSupply, this`rewardReserve, this`rewardPerShare, this`accumulatedRewards,
               this`lastRewardBlockNonce, this`boostedOwed, this`stakes, this`userTotalFarmPosition, this`owners,
               this`paidOut
      ensures Valid() && blockNonce <= lastRewardBlockNonce && boosted <= old(rewardReserve)
      ensures IsAccrual(due, old(RewardDue()), old(farmTokenSupply), divisionSafetyConstant,
                        old(boostedYieldsRewardsPercentage))
      ensures Stored()
           == Accrued(Paid(old(Stored()), 0, boosted), due).(farmTokenSupply := old(farmTokenSupply) + amount)
      ensures farmToken.attributes == MergedAll(Attributes(rewardPerShare, 0, amount, user), additional, |additional|)
      ensures farmToken.amount == farmToken.attributes.currentFarmAmount == |StakesOf(additional)| + amount
      ensures stakes
           == Exchanged(old(stakes), StakesOf(additional), farmToken.amount, farmToken.attributes.rewardPerShare)
      ensures owners == Exchanged(old(owners), OwnersOf(additional), farmToken.amount, user)
    {
      hide NewRewards, BooksOk, Exchanged, StakesOf, OwnersOf, MergedAll, PositionsOk, Lost;
      ClaimOnlyBoostedPayment(boosted);
      farmToken, due := EnterFarmBase(user, amount, additional);
    }

    /** The common part of the endpoints that pay a position: settled books, and the reward taken out of them. */
    method PayPosition(p: FarmPayment, boosted: nat) returns (cache: StorageCache, reward: nat, ghost due: Accrual)
      requires BooksOk(Stored(), divisionSafetyConstant, rewardCapacity, stakes)
      requires boostedYieldsRewardsPercentage <= MAX_PERCENT
      requires p.Stakes() <= stakes && p.amount > 0 && boosted <= boostedOwed
      modifies this`accumulatedRewards, this`lastRewardBlockNonce, this`boostedOwed, this`paidOut
      ensures fresh(cache)
      ensures blockNonce <= lastRewardBlockNonce
      ensures IsAccrual(due, old(RewardDue()), old(farmTokenSupply), divisionSafetyConstant,
                        old(boostedYieldsRewardsPercentage))
      ensures reward == BaseReward(p, cache.rewardPerShare, divisionSafetyConstant) + boosted
      ensures IsBaseReward(reward - boosted, p, cache.rewardPerShare, divisionSafetyConstant)
      ensures BooksOk(Accrued(old(Stored()), due), divisionSafetyConstant, rewardCapacity, stakes)
      ensures p.amount <= cache.farmTokenSupply
      ensures Book(cache) == Paid(Accrued(old(Stored()), due), reward - boosted, boosted)
      ensures cache.rewardPerShare == Accrued(old(Stored()), due).rewardPerShare == old(rewardPerShare) + due.increase
      ensures cache.farmTokenSupply == Accrued(old(Stored()), due).farmTokenSupply == old(farmTokenSupply)
      ensures boosted <= Accrued(old(Stored()), due).boostedOwed
    {
      hide NewRewards, IsAccrual, Pile, Solvent, BaseReward, IsBaseReward, Lost;
      cache, due := GenerateAggregatedRewards();
      var baseReward := BaseReward(p, cache.rewardPerShare, divisionSafetyConstant);
      ClaimKeepsBooks(Book(cache), divisionSafetyConstant, rewardCapacity, stakes, p, boosted, 0, baseReward);
      reward := baseReward + boosted;
      cache.rewardReserve := cache.rewardReserve - reward;
      boostedOwed, paidOut := boostedOwed - boosted, paidOut + reward;
    }

    /** Claiming keeps the position and moves it to the current rate; a new value replaces its amount, in the supply, in
        the user's total and in the token. */
    method ClaimRewardsCommon(user: Address, p: FarmPayment, boosted: nat, optNewFarmingAmount: Option<nat>)
      returns (farmToken: FarmPayment, reward: nat, ghost due: Accrual)
      requires Valid() && boosted <= boostedOwed
      requires Payable([p]) && p.Stakes() <= stakes && p.Owners() <= owners
      modifies this`farmTokenSupply, this`rewardReserve, this`rewardPerShare, this`accumulatedRewards,
               this`lastRewardBlockNonce, this`boostedOwed, this`stakes, this`userTotalFarmPosition, this`owners,
               this`paidOut
      ensures Valid() && blockNonce <= lastRewardBlockNonce
      ensures IsAccrual(due, old(RewardDue()), old(farmTokenSupply), divisionSafetyConstant,
                        old(boostedYieldsRewardsPercentage))
      ensures farmToken.amount == if optNewFarmingAmount.Some? then optNewFarmingAmount.value else p.amount
      ensures rewardPerShare == old(rewardPerShare) + due.increase
      ensures farmToken.attributes == Claimed(p, rewardPerShare, farmToken.amount, user)
      ensures reward == BaseReward(p, rewardPerShare, divisionSafetyConstant) + boosted
      ensures IsBaseReward(reward - boosted, p, rewardPerShare, divisionSafetyConstant)
      ensures Stored() == Paid(Accrued(old(Stored()), due), reward - boosted, boosted)
                            .(farmTokenSupply := old(farmTokenSupply) - p.amount + farmToken.amount)
      ensures stakes == Exchanged(old(stakes), p.Stakes(), farmToken.amount, rewardPerShare)
      ensures owners == Exchanged(old(owners), p.Owners(), farmToken.amount, user)
    {
      hide NewRewards, IsAccrual, BooksOk, Exchanged, StakesOf, OwnersOf, PositionsOk, Pile, BaseReward, IsBaseReward,
           IntoPart, Lost, Paid, Accrued, RewardDue;
      OneToken(p);
      assert p in [p];
      var cache: StorageCache;
      cache, reward, due := PayPosition(p, boosted);
      TakeOver(user, [p], 0);
      var newAmount := ReplaceAmount(cache, old(owners), p, user, optNewFarmingAmount);
      var attributes := Claimed(p, cache.rewardPerShare, newAmount, user);
      ClaimKeepsBooks(Accrued(old(Stored()), due), divisionSafetyConstant, rewardCapacity, stakes, p, boosted,
                      newAmount, reward - boosted);
      farmToken := FarmPayment(newAmount, attributes);
      Commit(cache, Exchanged(stakes, p.Stakes(), newAmount, cache.rewardPerShare));
    }

    /** A new value replaces the position's amount in the supply and in the user's total. */
    method ReplaceAmount(cache: StorageCache, ghost before: multiset<Address>, p: FarmPayment, user: Address,
                         optNewFarmingAmount: Option<nat>)
      returns (newAmount: nat)
      requires PositionsOk(userTotalFarmPosition, owners) && p.Owners() <= before && p.amount <= cache.farmTokenSupply
      requires owners == Exchanged(before, p.Owners(), p.amount, user)
      modifies cache, this`userTotalFarmPosition, this`owners
      ensures newAmount == if optNewFarmingAmount.Some? then optNewFarmingAmount.value else p.amount
      ensures cache.farmTokenSupply == old(cache.farmTokenSupply) - p.amount + newAmount
      ensures cache.rewardReserve == old(cache.rewardReserve) && cache.rewardPerShare == old(cache.rewardPerShare)
      ensures PositionsOk(userTotalFarmPosition, owners) && owners == Exchanged(before, p.Owners(), newAmount, user)
      ensures |owners| == |old(owners)| - p.amount + newAmount
    {
      hide PositionsOk, Exchanged;
      newAmount := p.amount;
      if optNewFarmingAmount.Some? {
        newAmount := optNewFarmingAmount.value;
        cache.farmTokenSupply := cache.farmTokenSupply - p.amount + newAmount;
        ReplacePosition(before, p, user, newAmount);
      }
    }

    /** The user's total position with one amount in place of another. */
    method ReplacePosition(ghost before: multiset<Address>, p: FarmPayment, user: Address, newAmount: nat)
      requires PositionsOk(userTotalFarmPosition, owners) && p.Owners() <= before
      requires owners == Exchanged(before, p.Owners(), p.amount, user)
      modifies this`userTotalFarmPosition, this`owners
      ensures PositionsOk(userTotalFarmPosition, owners) && owners == Exchanged(before, p.Owners(), newAmount, user)
      ensures |owners| == |old(owners)| - p.amount + newAmount
    {
      hide PositionsOk;
      var position := if user in userTotalFarmPosition then userTotalFarmPosition[user] else 0;
      PositionIs(userTotalFarmPosition, owners, user);
      OtherAmount(before, p, user, newAmount);
      PositionSet(userTotalFarmPosition, owners, user, position - p.amount + newAmount);
      userTotalFarmPosition := userTotalFarmPosition[user := position - p.amount + newAmount];
      owners := Exchanged(before, p.Owners(), newAmount, user);
    }

    method CompoundRewards(user: Address, payments: seq<FarmPayment>, boosted: nat)
      returns (farmToken: FarmPayment, reward: nat, ghost due: Accrual)
      requires Valid() && boosted <= boostedOwed && payments != []
      requires Payable(payments) && StakesOf(payments) <= stakes && OwnersOf(payments) <= owners
      modifies this`farmTokenSupply, this`rewardReserve, this`rewardPerShare, this`accumulatedRewards,
               this`lastRewardBlockNonce, this`boostedOwed, this`stakes, this`userTotalFarmPosition, this`owners,
               this`paidOut
      ensures Valid() && blockNonce <= lastRewardBlockNonce
      ensures IsAccrual(due, old(RewardDue()), old(farmTokenSupply), divisionSafetyConstant,
                        old(boostedYieldsRewardsPercentage))
      ensures reward == BaseReward(payments[0], rewardPerShare, divisionSafetyConstant) + boosted
      ensures IsBaseReward(reward - boosted, payments[0], rewardPerShare, divisionSafetyConstant)
      ensures farmToken.attributes == CompoundedInto(payments, rewardPerShare, reward, user)
      ensures farmToken.amount == farmToken.attributes.currentFarmAmount == |StakesOf(payments)| + reward
      ensures Stored()
           == Paid(Accrued(old(Stored()), due), reward - boosted, boosted)
              .(farmTokenSupply := old(farmTokenSupply) + reward)
      ensures stakes
           == Exchanged(old(stakes), StakesOf(payments), farmToken.amount, farmToken.attributes.rewardPerShare)
      ensures owners == Exchanged(old(owners), OwnersOf(payments), farmToken.amount, user)
    {
      hide NewRewards, IsAccrual, BooksOk, Exchanged, StakesOf, OwnersOf, MergedAll, PositionsOk, Pile, BaseReward,
           IsBaseReward, Compounded, Lost, Paid, Accrued, RewardDue;
      var p := payments[0];
      FirstAndRest(payments);
      var cache: StorageCache;
      cache, reward, due := PayPosition(p, boosted);
      var baseAttributes := Compounded(p, cache.rewardPerShare, reward, user);
      cache.farmTokenSupply := cache.farmTokenSupply + reward;
      TakeOver(user, payments, reward);
      var newAttributes := MergeAttributesFromPayments(baseAttributes, payments[1..]);
      CompoundKeepsBooks(Accrued(old(Stored()), due), divisionSafetyConstant, rewardCapacity, stakes, payments, boosted,
                         reward - boosted, baseAttributes, newAttributes);
      farmToken := FarmPayment(newAttributes.currentFarmAmount, newAttributes);
      Commit(cache, Exchanged(stakes, StakesOf(payments), farmToken.amount, newAttributes.rewardPerShare));
    }

    /** No settlement: the merged token keeps the rounded-up average rate of its parts. */
    method MergeFarmTokens(user: Address, payments: seq<FarmPayment>, boosted: nat) returns (farmToken: FarmPayment)
      requires Valid() && boosted <= boostedOwed && payments != []
      requires Payable(payments) && StakesOf(payments) <= stakes && OwnersOf(payments) <= owners
      modifies this`farmTokenSupply, this`rewardReserve, this`rewardPerShare, this`accumulatedRewards,
               this`lastRewardBlockNonce, this`boostedOwed, this`stakes, this`userTotalFarmPosition, this`owners,
               this`paidOut
      ensures Valid()
      ensures boosted <= old(rewardReserve) && Stored() == Paid(old(Stored()), 0, boosted)
      ensures farmToken.attributes == MergedInto(payments, user)
      ensures farmToken.amount == farmToken.attributes.currentFarmAmount == |StakesOf(payments)|
      ensures stakes
           == Exchanged(old(stakes), StakesOf(payments), farmToken.amount, farmToken.attributes.rewardPerShare)
      ensures owners == Exchanged(old(owners), OwnersOf(payments), farmToken.amount, user)
    {
      hide NewRewards, BooksOk, Exchanged, StakesOf, OwnersOf, MergedAll, PositionsOk, Pile, Lost;
      ClaimOnlyBoostedPayment(boosted);
      TakeOver(user, payments, 0);
      FirstAndRest(payments);
      var baseAttributes := IntoPart(payments[0].attributes, payments[0].amount);
      MergeKeepsBooks(Stored(), divisionSafetyConstant, rewardCapacity, stakes, baseAttributes, payments[1..]);
      var outputAttributes := MergeAttributesFromPayments(baseAttributes, payments[1..]);
      outputAttributes := outputAttributes.(originalOwner := user);
      farmToken := FarmPayment(outputAttributes.currentFarmAmount, outputAttributes);
      stakes := Exchanged(stakes, StakesOf(payments), farmToken.amount, outputAttributes.rewardPerShare);
    }

    /** Exiting pays the position's rewards and gives back its tokens to unbond. */
    method UnstakeFarm(p: FarmPayment, boosted: nat, optUnbondAmount: Option<nat>)
      returns (unbondAmount: nat, reward: nat, ghost due: Accrual)
      requires Valid() && boosted <= boostedOwed
      requires Payable([p]) && p.Stakes() <= stakes && p.Owners() <= owners
      modifies this`farmTokenSupply, this`rewardReserve, this`rewardPerShare, this`accumulatedRewards,
               this`lastRewardBlockNonce, this`boostedOwed, this`stakes, this`userTotalFarmPosition, this`owners,
               this`paidOut
      ensures Valid() && blockNonce <= lastRewardBlockNonce
      ensures IsAccrual(due, old(RewardDue()), old(farmTokenSupply), divisionSafetyConstant,
                        old(boostedYieldsRewardsPercentage))
      ensures unbondAmount == if optUnbondAmount.Some? then optUnbondAmount.value else p.amount
      ensures rewardPerShare == old(rewardPerShare) + due.increase
      ensures reward == BaseReward(p, rewardPerShare, divisionSafetyConstant) + boosted
      ensures IsBaseReward(reward - boosted, p, rewardPerShare, divisionSafetyConstant)
      ensures Stored()
           == Paid(Accrued(old(Stored()), due), reward - boosted, boosted)
              .(farmTokenSupply := old(farmTokenSupply) - p.amount)
      ensures stakes == Without(old(stakes), p.Stakes()) && owners == Without(old(owners), p.Owners())
    {
      hide NewRewards, IsAccrual, BooksOk, PositionsOk, Pile, Without, BaseReward, IsBaseReward, Lost;
      assert p in [p];
      var cache: StorageCache;
      cache, reward, due := PayPosition(p, boosted);
      var attributes := IntoPart(p.attributes, p.amount);
      OwnersLeft(owners, p);
      DecreaseUserFarmPosition(p);
      ExitKeepsBooks(Accrued(old(Stored()), due), divisionSafetyConstant, rewardCapacity, stakes, p, boosted,
                     reward - boosted);
      cache.farmTokenSupply := cache.farmTokenSupply - attributes.currentFarmAmount;
      Commit(cache, Without(stakes, p.Stakes()));
      unbondAmount := if optUnbondAmount.Some? then optUnbondAmount.value else attributes.currentFarmAmount;
    }

    /** The endpoint that only claims boosted rewards takes them out of the stored reserve while it holds a cache of the
        reserve, and the cache is written back over it: what was paid stays counted in the reserve. */
    method ClaimBoostedRewards(boosted: nat) returns (ghost due: Accrual)
      requires Valid() && boosted <= boostedOwed
      modifies this`farmTokenSupply, this`rewardReserve, this`rewardPerShare, this`accumulatedRewards,
               this`lastRewardBlockNonce, this`boostedOwed, this`stakes, this`paidOut, this`boostedClaims
      ensures Valid() && blockNonce <= lastRewardBlockNonce
      ensures IsAccrual(due, old(RewardDue()), old(farmTokenSupply), divisionSafetyConstant,
                        old(boostedYieldsRewardsPercentage))
      ensures boostedClaims == old(boostedClaims) + [boosted] && stakes == old(stakes)
      ensures Stored() == Overwritten(old(Stored()), due, boosted)
      ensures old(rewardReserve == accumulatedRewards - paidOut) ==>
                (rewardReserve == accumulatedRewards - paidOut <==> boosted == 0)
    {
      hide NewRewards, IsAccrual, BooksOk, PositionsOk, Lost;
      var cache: StorageCache;
      cache, due := GenerateAggregatedRewards();
      OverwrittenKeepsBooks(old(Stored()), due, divisionSafetyConstant, rewardCapacity, stakes, boosted);
      OneMoreLost(boostedClaims, boosted);
      rewardReserve := rewardReserve - boosted;
      boostedOwed, paidOut, boostedClaims := boostedOwed - boosted, paidOut + boosted, boostedClaims + [boosted];
      Commit(cache, stakes);
    }
  }
}
