/** Farm positions as units carrying the reward per share they were entered at, and the rewards they are still owed. */
module FarmTokens {
  import opened Chain
  import opened Arith
  import opened Math
  import opened Units

  /** token_attributes.rs: what is stored with a farm token. */
  datatype Attributes = Attributes(rewardPerShare: nat, compoundedReward: nat, currentFarmAmount: nat,
                                   originalOwner: Address)

  /** `amount` farm tokens of the nonce that carries `attributes`. */
  datatype FarmPayment = FarmPayment(amount: nat, attributes: Attributes) {
    ghost function Stakes(): multiset<nat> {
      Pile(amount, attributes.rewardPerShare)
    }
    ghost function Owners(): multiset<Address> {
      Pile(amount, attributes.originalOwner)
    }
  }

  /** The attributes of a part of the tokens minted together. */
  function IntoPart(a: Attributes, paymentAmount: nat): (r: Attributes)
    requires a.currentFarmAmount > 0
    ensures r.currentFarmAmount == paymentAmount && r.rewardPerShare == a.rewardPerShare
    ensures r.originalOwner == a.originalOwner
  {
    if paymentAmount == a.currentFarmAmount then a else
      FloorNat(a.compoundedReward * paymentAmount, a.currentFarmAmount);
      a.(compoundedReward := a.compoundedReward * paymentAmount / a.currentFarmAmount,
         currentFarmAmount := paymentAmount)
  }

  function MergeWith(a: Attributes, b: Attributes): Attributes
    requires a.currentFarmAmount + b.currentFarmAmount > 0
  {
    Attributes(WeightedAverageRoundUp(a.rewardPerShare, a.currentFarmAmount, b.rewardPerShare, b.currentFarmAmount),
               a.compoundedReward + b.compoundedReward, a.currentFarmAmount + b.currentFarmAmount, a.originalOwner)
  }

  /** Compounded rewards are part of the position; what was staked is the rest. */
  ghost predicate CountsCompounded(a: Attributes) {
    a.compoundedReward <= a.currentFarmAmount
  }

  /** Splitting a token in two loses at most one unit of compounded rewards, and never makes any. */
  lemma SplitKeepsCompounded(a: Attributes, part: nat)
    requires 0 < part < a.currentFarmAmount && CountsCompounded(a)
    ensures var x, y := IntoPart(a, part), IntoPart(a, a.currentFarmAmount - part);
            && CountsCompounded(x) && CountsCompounded(y)
            && x.rewardPerShare == y.rewardPerShare == a.rewardPerShare
            && x.currentFarmAmount + y.currentFarmAmount == a.currentFarmAmount
            && IsFloor(x.compoundedReward, a.compoundedReward * part, a.currentFarmAmount)
            && IsFloor(y.compoundedReward, a.compoundedReward * (a.currentFarmAmount - part), a.currentFarmAmount)
            && a.compoundedReward - 1 <= x.compoundedReward + y.compoundedReward <= a.compoundedReward
  {
    var n, c := a.currentFarmAmount, a.compoundedReward;
    var rest := n - part;
    FloorOf(c * part, n);
    FloorOf(c * rest, n);
    var x, y: int := c * part / n, c * rest / n;
    assert c * part + c * rest == c * n;
    LeOfMul(x + y, c, n);
    LtOfMul(c, x + y + 2, n);
    MulLe(c, n, part);
    MulLe(c, n, rest);
    LeOfMul(x, part, n);
    LeOfMul(y, rest, n);
  }

  lemma MergeKeepsCompounded(a: Attributes, b: Attributes)
    requires a.currentFarmAmount + b.currentFarmAmount > 0
    ensures CountsCompounded(a) && CountsCompounded(b) ==> CountsCompounded(MergeWith(a, b))
  {
    hide WeightedAverageRoundUp;
  }

  /** A position with its reward added to it. */
  function Compounded(p: FarmPayment, rewardPerShare: nat, reward: nat, user: Address): (r: Attributes)
    requires p.attributes.currentFarmAmount > 0
    ensures r.currentFarmAmount == p.amount + reward && r.rewardPerShare == rewardPerShare && r.originalOwner == user
  {
    var part := IntoPart(p.attributes, p.amount);
    Attributes(rewardPerShare, part.compoundedReward + reward, part.currentFarmAmount + reward, user)
  }

  /** A position moved to the current rate, with another amount. */
  function Claimed(p: FarmPayment, rewardPerShare: nat, newAmount: nat, user: Address): (r: Attributes)
    requires p.attributes.currentFarmAmount > 0
    ensures r.currentFarmAmount == newAmount && r.rewardPerShare == rewardPerShare && r.originalOwner == user
  {
    Attributes(rewardPerShare, IntoPart(p.attributes, p.amount).compoundedReward, newAmount, user)
  }

  /** What is left of a position without its compounded rewards. */
  ghost function Staked(a: Attributes): int {
    a.currentFarmAmount - a.compoundedReward
  }

  /** Compounding adds the reward to both, so what was staked stays the same; claiming keeps what was compounded. */
  lemma StakedKept(p: FarmPayment, rewardPerShare: nat, amount: nat, user: Address)
    requires 0 < p.amount <= p.attributes.currentFarmAmount
    ensures var part := IntoPart(p.attributes, p.amount);
            && Staked(Compounded(p, rewardPerShare, amount, user)) == Staked(part)
            && Compounded(p, rewardPerShare, amount, user).compoundedReward == part.compoundedReward + amount
            && Claimed(p, rewardPerShare, amount, user).compoundedReward == part.compoundedReward
            && IsFloor(part.compoundedReward, p.attributes.compoundedReward * p.amount, p.attributes.currentFarmAmount)
  {
    var n, c := p.attributes.currentFarmAmount, p.attributes.compoundedReward;
    FloorOf(c * p.amount, n);
    assert c * n < (c + 1) * n by {
      MulLt(c, c + 1, n);
    }
  }

  /** How a farm token came about, from the tokens that were paid for it. */
  datatype Origin =
    | Entered(amount: nat, rewardPerShare: nat, user: Address)
    | Joined(first: Origin, second: Origin, paid: nat)
    | Compounding(of: Origin, paid: nat, reward: nat, rewardPerShare: nat, user: Address)
    | Claiming(of: Origin, paid: nat, newAmount: nat, rewardPerShare: nat, user: Address)

  /** Every payment is a part of the token it is taken from. */
  ghost predicate IsOrigin(o: Origin)
    decreases o, 0
  {
    match o
    case Entered(amount, _, _) => amount > 0
    case Joined(first, second, paid) =>
      IsOrigin(first) && IsOrigin(second) && 0 < paid <= Made(second).currentFarmAmount
    case Compounding(of, paid, _, _, _) => IsOrigin(of) && 0 < paid <= Made(of).currentFarmAmount
    case Claiming(of, paid, newAmount, _, _) => IsOrigin(of) && 0 < paid <= Made(of).currentFarmAmount && newAmount > 0
  }

  /** The attributes it was minted with. */
  ghost function Made(o: Origin): (r: Attributes)
    requires IsOrigin(o)
    ensures r.currentFarmAmount > 0
    decreases o, 1
  {
    match o
    case Entered(amount, rate, user) => Attributes(rate, 0, amount, user)
    case Joined(first, second, paid) => MergeWith(Made(first), IntoPart(Made(second), paid))
    case Compounding(of, paid, reward, rate, user) => Compounded(FarmPayment(paid, Made(of)), rate, reward, user)
    case Claiming(of, paid, newAmount, rate, user) => Claimed(FarmPayment(paid, Made(of)), rate, newAmount, user)
  }

  /** No claim on the way was left with less than the compounded rewards of the part that was paid. */
  ghost predicate NoneShrunk(o: Origin)
    requires IsOrigin(o)
  {
    match o
    case Entered(_, _, _) => true
    case Joined(first, second, _) => NoneShrunk(first) && NoneShrunk(second)
    case Compounding(of, _, _, _, _) => NoneShrunk(of)
    case Claiming(of, paid, newAmount, _, _) => NoneShrunk(of) && IntoPart(Made(of), paid).compoundedReward <= newAmount
  }

  /** The token and all those it was made from. */
  ghost predicate AllCount(o: Origin)
    requires IsOrigin(o)
  {
    && CountsCompounded(Made(o))
    && match o
       case Entered(_, _, _) => true
       case Joined(first, second, _) => AllCount(first) && AllCount(second)
       case Compounding(of, _, _, _, _) => AllCount(of)
       case Claiming(of, _, _, _, _) => AllCount(of)
  }

  lemma PartCounts(a: Attributes, part: nat)
    requires 0 < part <= a.currentFarmAmount && CountsCompounded(a)
    ensures CountsCompounded(IntoPart(a, part))
  {
    if part < a.currentFarmAmount {
      SplitKeepsCompounded(a, part);
    }
  }

  /** Over every run, compounded rewards stay within the positions iff no claim with a smaller new value left less than
      they were. */
  lemma {:induction false} CompoundedCounted(o: Origin)
    requires IsOrigin(o)
    ensures AllCount(o) <==> NoneShrunk(o)
  {
    hide IntoPart, MergeWith;
    match o
    case Entered(_, _, _) =>
    case Joined(first, second, paid) =>
      CompoundedCounted(first);
      CompoundedCounted(second);
      if AllCount(first) && AllCount(second) {
        PartCounts(Made(second), paid);
        MergeKeepsCompounded(Made(first), IntoPart(Made(second), paid));
      }
    case Compounding(of, paid, _, _, _) =>
      CompoundedCounted(of);
      if AllCount(of) {
        PartCounts(Made(of), paid);
      }
    case Claiming(of, _, _, _, _) =>
      CompoundedCounted(of);
  }

  // ---- Lists of farm tokens ----

  ghost predicate Payable(ps: seq<FarmPayment>) {
    forall p :: p in ps ==> 0 < p.amount <= p.attributes.currentFarmAmount
  }

  ghost function StakesOf(ps: seq<FarmPayment>): multiset<nat> {
    if ps == [] then multiset{} else StakesOf(ps[..|ps| - 1]) + ps[|ps| - 1].Stakes()
  }

  ghost function OwnersOf(ps: seq<FarmPayment>): multiset<Address> {
    if ps == [] then multiset{} else OwnersOf(ps[..|ps| - 1]) + ps[|ps| - 1].Owners()
  }

  lemma {:induction false} TokensStep(ps: seq<FarmPayment>, i: nat)
    requires i < |ps|
    ensures StakesOf(ps[..i + 1]) == StakesOf(ps[..i]) + ps[i].Stakes()
    ensures OwnersOf(ps[..i + 1]) == OwnersOf(ps[..i]) + ps[i].Owners()
    ensures StakesOf(ps[..i + 1]) <= StakesOf(ps) && OwnersOf(ps[..i + 1]) <= OwnersOf(ps)
    decreases |ps| - i
  {
    assert ps[..i + 1][..i] == ps[..i];
    if i + 1 == |ps| {
      assert ps[..i + 1] == ps;
    } else {
      TokensStep(ps, i + 1);
    }
  }

  lemma {:induction false} AsManyOwners(ps: seq<FarmPayment>)
    ensures |StakesOf(ps)| == |OwnersOf(ps)|
  {
    if ps != [] {
      var last := ps[|ps| - 1];
      AsManyOwners(ps[..|ps| - 1]);
      WorthPile(last.amount, last.attributes.rewardPerShare, 0);
      WorthPile(last.amount, last.attributes.originalOwner, 0);
      WorthPlus(StakesOf(ps[..|ps| - 1]), last.Stakes(), 0);
      WorthPlus(OwnersOf(ps[..|ps| - 1]), last.Owners(), 0);
    }
  }

  /** `base` with the first n payments merged into it, each as the part of its token that was paid. */
  ghost function MergedAll(base: Attributes, ps: seq<FarmPayment>, n: nat): (r: Attributes)
    requires n <= |ps| && Payable(ps) && base.currentFarmAmount > 0
    ensures r.currentFarmAmount > 0 && r.originalOwner == base.originalOwner
  {
    if n == 0 then base
    else MergeWith(MergedAll(base, ps, n - 1), IntoPart(ps[n - 1].attributes, ps[n - 1].amount))
  }

  /** The compounded rewards of the parts that are paid. */
  ghost function CompoundedSum(ps: seq<FarmPayment>, n: nat): nat
    requires n <= |ps| && Payable(ps)
  {
    if n == 0 then 0
    else CompoundedSum(ps, n - 1) + IntoPart(ps[n - 1].attributes, ps[n - 1].amount).compoundedReward
  }

  /** Merging neither makes nor loses compounded rewards. */
  lemma {:induction false} MergedCompounded(base: Attributes, ps: seq<FarmPayment>, n: nat)
    requires n <= |ps| && Payable(ps) && base.currentFarmAmount > 0
    ensures MergedAll(base, ps, n).compoundedReward == base.compoundedReward + CompoundedSum(ps, n)
  {
    hide IntoPart, WeightedAverageRoundUp;
    if n > 0 {
      MergedCompounded(base, ps, n - 1);
    }
  }

  /** Many tokens merged into one of a user. */
  ghost function MergedInto(ps: seq<FarmPayment>, user: Address): Attributes
    requires ps != [] && Payable(ps)
  {
    MergedAll(IntoPart(ps[0].attributes, ps[0].amount), ps[1..], |ps| - 1).(originalOwner := user)
  }

  /** The same with a reward added to the first. */
  ghost function CompoundedInto(ps: seq<FarmPayment>, rewardPerShare: nat, reward: nat, user: Address): Attributes
    requires ps != [] && Payable(ps)
  {
    MergedAll(Compounded(ps[0], rewardPerShare, reward, user), ps[1..], |ps| - 1)
  }

  // ---- Solvency ----

  /** What the units are owed, in division constants: each unit the growth of the rate since it was entered. */
  ghost function Owed(stakes: multiset<nat>, rewardPerShare: nat): int {
    -Worth(stakes, rewardPerShare)
  }

  /** No unit is ahead of the rate, and the base rewards in reserve cover what all units are owed. */
  ghost predicate Solvent(stakes: multiset<nat>, rewardPerShare: nat, constant: nat, reserve: int) {
    AllAtMost(stakes, rewardPerShare) && 0 <= reserve && Owed(stakes, rewardPerShare) <= constant * reserve
  }

  /** New base rewards raise the rate by no more than they pay for. */
  lemma AccrualSolvent(stakes: multiset<nat>, rps: nat, constant: nat, reserve: int, base: nat)
    requires Solvent(stakes, rps, constant, reserve) && |stakes| > 0
    ensures Solvent(stakes, rps + base * constant / |stakes|, constant, reserve + base)
  {
    var n: int := |stakes|;
    var increase := base * constant / n;
    FloorOf(base * constant, n);
    FloorNat(base * constant, n);
    WorthShift(stakes, rps, rps + increase);
    assert constant * (reserve + base) == constant * reserve + base * constant;
    assert n * (rps + increase - rps) == increase * n;
  }

  lemma NothingStakedSolvent(rps: nat, constant: nat, reserve: int)
    requires 0 <= reserve
    ensures Solvent(multiset{}, rps, constant, reserve)
  {
    MulNat(constant, reserve);
  }

  /** A position's base reward is covered, and taking it out with the position leaves the rest covered. */
  lemma PaidSolvent(stakes: multiset<nat>, rps: nat, constant: nat, reserve: int, amount: nat, u: nat)
    requires Solvent(stakes, rps, constant, reserve) && Pile(amount, u) <= stakes && constant > 0 && amount > 0
    ensures u <= rps
    ensures var reward := amount * (rps - u) / constant;
            0 <= reward <= reserve && Solvent(stakes - Pile(amount, u), rps, constant, reserve - reward)
  {
    hide Worth;
    assert u in Pile(amount, u);
    var rest := stakes - Pile(amount, u);
    WorthPile(amount, u, rps);
    WorthMinus(stakes, Pile(amount, u), rps);
    forall v | v in rest
      ensures v <= rps
    {
      assert v in stakes;
    }
    WorthNonPositive(rest, rps);
    RewardCovered(amount, rps - u, constant, reserve, Owed(rest, rps));
    assert amount * (u - rps) == -(amount * (rps - u));
  }

  lemma RewardCovered(amount: nat, gain: nat, constant: nat, reserve: int, rest: int)
    requires constant > 0 && 0 <= rest && amount * gain + rest <= constant * reserve
    ensures var reward := amount * gain / constant;
            0 <= reward <= reserve && rest <= constant * (reserve - reward)
  {
    var reward := amount * gain / constant;
    MulNat(amount, gain);
    FloorNat(amount * gain, constant);
    FloorOf(amount * gain, constant);
    LeOfMul(reward, reserve, constant);
    assert constant * (reserve - reward) == constant * reserve - reward * constant;
  }

  /** Units entered at the current rate are owed nothing. */
  lemma EnteredSolvent(stakes: multiset<nat>, rps: nat, constant: nat, reserve: int, amount: nat)
    requires Solvent(stakes, rps, constant, reserve)
    ensures Solvent(stakes + Pile(amount, rps), rps, constant, reserve)
  {
    WorthPile(amount, rps, rps);
    WorthPlus(stakes, Pile(amount, rps), rps);
  }

  /** Merging rounds the rate of the merged token up, so it never creates rewards, and gives up less than one unit of
      the rate per token and merge. */
  lemma {:induction false} MergingCreatesNothing(base: Attributes, ps: seq<FarmPayment>, n: nat, rps: nat)
    requires n <= |ps| && Payable(ps) && base.currentFarmAmount > 0
    requires base.rewardPerShare <= rps && forall p :: p in ps ==> p.attributes.rewardPerShare <= rps
    ensures var m := MergedAll(base, ps, n);
            && m.rewardPerShare <= rps
            && m.currentFarmAmount == base.currentFarmAmount + |StakesOf(ps[..n])|
            && var merged := Owed(Pile(m.currentFarmAmount, m.rewardPerShare), rps);
               var parts := Owed(Pile(base.currentFarmAmount, base.rewardPerShare), rps) + Owed(StakesOf(ps[..n]), rps);
               merged <= parts <= merged + n * m.currentFarmAmount
  {
    hide WeightedAverageRoundUp, Worth, Pile, StakesOf, MergedAll, MergeWith, IntoPart;
    MergedStep(base, ps, n);
    if n == 0 {
      NothingPaid(ps, rps);
    } else {
      var p := ps[n - 1];
      var m := MergedAll(base, ps, n - 1);
      MergingCreatesNothing(base, ps, n - 1, rps);
      TokensStep(ps, n - 1);
      WorthPlus(StakesOf(ps[..n - 1]), p.Stakes(), rps);
      WorthPile(p.amount, p.attributes.rewardPerShare, rps);
      PairCreatesNothing(m, IntoPart(p.attributes, p.amount), rps);
      LossGrows(n, m.currentFarmAmount, MergedAll(base, ps, n).currentFarmAmount);
    }
  }

  lemma MergedStep(base: Attributes, ps: seq<FarmPayment>, n: nat)
    requires n <= |ps| && Payable(ps) && base.currentFarmAmount > 0
    ensures n == 0 ==> MergedAll(base, ps, n) == base
    ensures n > 0 ==>
              var p, m := ps[n - 1], MergedAll(base, ps, n - 1);
              && p.attributes.currentFarmAmount > 0
              && MergedAll(base, ps, n) == MergeWith(m, IntoPart(p.attributes, p.amount))
              && MergedAll(base, ps, n).currentFarmAmount == m.currentFarmAmount + p.amount
  {
    hide WeightedAverageRoundUp;
  }

  lemma LossGrows(n: nat, amount: nat, amount': nat)
    requires 0 < n && amount <= amount'
    ensures (n - 1) * amount + amount' <= n * amount'
  {
    MulLe(amount, amount', n - 1);
    MulStep(n, amount');
  }

  lemma NothingPaid(ps: seq<FarmPayment>, rps: nat)
    ensures StakesOf(ps[..0]) == multiset{} == OwnersOf(ps[..0]) && Owed(StakesOf(ps[..0]), rps) == 0
  {
  }

  lemma PairCreatesNothing(a: Attributes, b: Attributes, rps: nat)
    requires a.currentFarmAmount > 0 && a.rewardPerShare <= rps && b.rewardPerShare <= rps
    ensures var m := MergeWith(a, b);
            && m.rewardPerShare <= rps
            && var merged := Owed(Pile(m.currentFarmAmount, m.rewardPerShare), rps);
               var parts := Owed(Pile(a.currentFarmAmount, a.rewardPerShare), rps)
                            + Owed(Pile(b.currentFarmAmount, b.rewardPerShare), rps);
               merged <= parts < merged + m.currentFarmAmount
  {
    hide WeightedAverageRoundUp, Worth, Pile;
    var m := MergeWith(a, b);
    AverageIsCeiling(a.rewardPerShare, a.currentFarmAmount, b.rewardPerShare, b.currentFarmAmount);
    AverageBetween(a.rewardPerShare, a.currentFarmAmount, b.rewardPerShare, b.currentFarmAmount, 0, rps);
    WorthPile(a.currentFarmAmount, a.rewardPerShare, rps);
    WorthPile(b.currentFarmAmount, b.rewardPerShare, rps);
    WorthPile(m.currentFarmAmount, m.rewardPerShare, rps);
    Spread(a.currentFarmAmount, a.rewardPerShare, rps);
    Spread(b.currentFarmAmount, b.rewardPerShare, rps);
    Spread(m.currentFarmAmount, m.rewardPerShare, rps);
    assert m.currentFarmAmount * rps == a.currentFarmAmount * rps + b.currentFarmAmount * rps;
  }

  lemma Spread(n: int, u: int, base: int)
    ensures n * (u - base) == u * n - n * base
  {
  }

  /** Replacing tokens by the one they merge into keeps the farm solvent. */
  lemma MergedSolvent(stakes: multiset<nat>, rps: nat, constant: nat, reserve: int, base: Attributes,
                      ps: seq<FarmPayment>)
    requires Solvent(stakes, rps, constant, reserve) && Payable(ps) && base.currentFarmAmount > 0
    requires Pile(base.currentFarmAmount, base.rewardPerShare) + StakesOf(ps) <= stakes
    ensures var m := MergedAll(base, ps, |ps|);
            var gone := Pile(base.currentFarmAmount, base.rewardPerShare) + StakesOf(ps);
            && m.currentFarmAmount == base.currentFarmAmount + |StakesOf(ps)|
            && Solvent(stakes - gone + Pile(m.currentFarmAmount, m.rewardPerShare), rps, constant, reserve)
  {
    hide Worth, MergedAll, StakesOf;
    var m := MergedAll(base, ps, |ps|);
    var basePile, mergedPile := Pile(base.currentFarmAmount, base.rewardPerShare), Pile(m.currentFarmAmount,
                                     m.rewardPerShare);
    var gone := basePile + StakesOf(ps);
    assert ps[..|ps|] == ps;
    assert base.rewardPerShare in basePile && base.rewardPerShare in stakes;
    PaidUnitsIn(stakes, ps);
    MergingCreatesNothing(base, ps, |ps|, rps);
    WorthPlus(basePile, StakesOf(ps), rps);
    WorthMinus(stakes, gone, rps);
    WorthPlus(stakes - gone, mergedPile, rps);
    forall u | u in stakes - gone + mergedPile
      ensures u <= rps
    {
      assert u in stakes || u == m.rewardPerShare;
    }
  }

  lemma PaidUnitsIn(stakes: multiset<nat>, ps: seq<FarmPayment>)
    requires StakesOf(ps) <= stakes && Payable(ps)
    ensures forall p :: p in ps ==> p.attributes.rewardPerShare in stakes
  {
    forall i | 0 <= i < |ps|
      ensures ps[i].attributes.rewardPerShare in stakes
    {
      TokensStep(ps, i);
      assert ps[i].attributes.rewardPerShare in ps[i].Stakes();
    }
  }

  // ---- Positions of users ----

  ghost function Position(positions: map<Address, nat>, user: Address): nat {
    if user in positions then positions[user] else 0
  }

  /** A user's total position counts the farm tokens that carry the user as their owner. */
  ghost predicate PositionsOk(positions: map<Address, nat>, owners: multiset<Address>) {
    forall u :: Position(positions, u) == owners[u]
  }

  lemma PositionSet(positions: map<Address, nat>, owners: multiset<Address>, user: Address, amount: nat)
    requires PositionsOk(positions, owners)
    ensures PositionsOk(positions[user := amount], owners[user := amount])
    ensures amount == 0 ==> PositionsOk(positions - {user}, owners[user := amount])
  {
  }

  lemma MoreOwned(owners: multiset<Address>, user: Address, amount: nat)
    ensures owners + Pile(amount, user) == owners[user := owners[user] + amount]
  {
  }

  lemma LessOwned(owners: multiset<Address>, user: Address, amount: nat)
    requires Pile(amount, user) <= owners
    ensures amount <= owners[user] && owners - Pile(amount, user) == owners[user := owners[user] - amount]
  {
    assert Pile(amount, user)[user] == amount;
  }

  /** What is left of the owners once the first i payments belong to `user`. */
  ghost function Handed(owners: multiset<Address>, ps: seq<FarmPayment>, i: nat, user: Address): multiset<Address>
    requires i <= |ps|
  {
    owners - OwnersOf(ps[..i]) + Pile(|OwnersOf(ps[..i])|, user)
  }

  lemma HandOver(m: multiset<Address>, taken: multiset<Address>, n: nat, amount: nat, owner: Address, user: Address)
    requires taken + Pile(amount, owner) <= m
    ensures owner == user ==> m - (taken + Pile(amount, owner)) + Pile(n + amount, user) == m - taken + Pile(n, user)
    ensures owner != user ==>
              && Pile(amount, owner) <= m - taken + Pile(n, user)
              && m - (taken + Pile(amount, owner)) + Pile(n + amount, user)
                 == m - taken + Pile(n, user) - Pile(amount, owner) + Pile(amount, user)
  {
    forall u
      ensures taken[u] + Pile(amount, owner)[u] <= m[u]
    {
      assert (taken + Pile(amount, owner))[u] <= m[u];
    }
    if owner == user {
      BackToOwner(m, taken, n, amount, user);
    } else {
      ToOther(m, taken, n, amount, owner, user);
    }
  }

  lemma BackToOwner(m: multiset<Address>, taken: multiset<Address>, n: nat, amount: nat, user: Address)
    requires forall u :: taken[u] + Pile(amount, user)[u] <= m[u]
    ensures m - (taken + Pile(amount, user)) + Pile(n + amount, user) == m - taken + Pile(n, user)
  {
    forall u
      ensures (m - (taken + Pile(amount, user)) + Pile(n + amount, user))[u] == (m - taken + Pile(n, user))[u]
    {
      assert taken[u] + Pile(amount, user)[u] <= m[u];
    }
  }

  lemma ToOther(m: multiset<Address>, taken: multiset<Address>, n: nat, amount: nat, owner: Address, user: Address)
    requires owner != user && forall u :: taken[u] + Pile(amount, owner)[u] <= m[u]
    ensures Pile(amount, owner) <= m - taken + Pile(n, user)
    ensures m - (taken + Pile(amount, owner)) + Pile(n + amount, user)
         == m - taken + Pile(n, user) - Pile(amount, owner) + Pile(amount, user)
  {
    forall u
      ensures Pile(amount, owner)[u] <= (m - taken + Pile(n, user))[u]
      ensures (m - (taken + Pile(amount, owner)) + Pile(n + amount, user))[u]
           == (m - taken + Pile(n, user) - Pile(amount, owner) + Pile(amount, user))[u]
    {
      assert taken[u] + Pile(amount, owner)[u] <= m[u];
    }
  }

  lemma HandedStep(owners: multiset<Address>, ps: seq<FarmPayment>, i: nat, user: Address)
    requires i < |ps| && OwnersOf(ps) <= owners
    ensures var p := ps[i];
            && (p.attributes.originalOwner == user ==> Handed(owners, ps, i + 1, user) == Handed(owners, ps, i, user))
            && (p.attributes.originalOwner != user ==>
                  && p.Owners() <= Handed(owners, ps, i, user)
                  && Handed(owners, ps, i + 1, user) == Handed(owners, ps, i, user) - p.Owners() + Pile(p.amount, user))
  {
    hide Worth, OwnersOf, Pile;
    var p, taken := ps[i], OwnersOf(ps[..i]);
    TokensStep(ps, i);
    WorthPlus(taken, p.Owners(), 0);
    WorthPile(p.amount, p.attributes.originalOwner, 0);
    HandOver(owners, taken, |taken|, p.amount, p.attributes.originalOwner, user);
  }

  lemma HandedStart(owners: multiset<Address>, ps: seq<FarmPayment>, user: Address)
    ensures Handed(owners, ps, 0, user) == owners
  {
  }

  lemma HandedAll(owners: multiset<Address>, ps: seq<FarmPayment>, user: Address)
    ensures Handed(owners, ps, |ps|, user) == owners - OwnersOf(ps) + Pile(|OwnersOf(ps)|, user)
  {
    assert ps[..|ps|] == ps;
  }
}
