/** dex/price-discovery/src/phase.rs: phases by block, and the penalty each puts on withdrawing. */
module Phases {
  import opened Arith
  import opened Math

  const MAX_PERCENTAGE: nat := 10_000_000_000_000

  datatype Settings = Settings(
    startBlock: nat, noLimitPhaseDurationBlocks: nat, linearPenaltyPhaseDurationBlocks: nat,
    fixedPenaltyPhaseDurationBlocks: nat,
    penaltyMinPercentage: nat, penaltyMaxPercentage: nat, fixedPenaltyPercentage: nat,
    minLaunchedTokenPrice: nat, pricePrecision: nat)

  datatype Phase =
    | Idle
    | NoPenalty
    | LinearIncreasingPenalty(penaltyPercentage: nat)
    | OnlyWithdrawFixedPenalty(penaltyPercentage: nat)
    | Redeem

  /** What the contract is set up with. */
  predicate SettingsOk(s: Settings) {
    && s.penaltyMinPercentage <= s.penaltyMaxPercentage < MAX_PERCENTAGE
    && s.fixedPenaltyPercentage < MAX_PERCENTAGE
    && s.pricePrecision > 0
  }

  function LinearIncrease(s: Settings, blocksPassed: nat): nat
    requires s.penaltyMinPercentage <= s.penaltyMaxPercentage
  {
    var duration := s.linearPenaltyPhaseDurationBlocks;
    if duration > 1 then
      MulNat(s.penaltyMaxPercentage - s.penaltyMinPercentage, blocksPassed);
      FloorNat((s.penaltyMaxPercentage - s.penaltyMinPercentage) * blocksPassed, duration - 1);
      (s.penaltyMaxPercentage - s.penaltyMinPercentage) * blocksPassed / (duration - 1)
    else
      0
  }

  function GetCurrentPhase(s: Settings, currentBlock: nat): Phase
    requires SettingsOk(s)
  {
    var noLimitPhaseEnd := s.startBlock + s.noLimitPhaseDurationBlocks;
    var linearPenaltyPhaseEnd := noLimitPhaseEnd + s.linearPenaltyPhaseDurationBlocks;
    var fixedPenaltyPhaseEnd := linearPenaltyPhaseEnd + s.fixedPenaltyPhaseDurationBlocks;
    if currentBlock < s.startBlock then Idle
    else if currentBlock < noLimitPhaseEnd then NoPenalty
    else if currentBlock < linearPenaltyPhaseEnd then
      LinearIncreasingPenalty(s.penaltyMinPercentage + LinearIncrease(s, currentBlock - noLimitPhaseEnd))
    else if currentBlock < fixedPenaltyPhaseEnd then OnlyWithdrawFixedPenalty(s.fixedPenaltyPercentage)
    else Redeem
  }

  function GetPenaltyPercentage(p: Phase): nat {
    match p
    case LinearIncreasingPenalty(percentage) => percentage
    case OnlyWithdrawFixedPenalty(percentage) => percentage
    case _ => 0
  }

  function Order(p: Phase): nat {
    match p
    case Idle => 0
    case NoPenalty => 1
    case LinearIncreasingPenalty(_) => 2
    case OnlyWithdrawFixedPenalty(_) => 3
    case Redeem => 4
  }

  predicate IsDepositAllowed(p: Phase) {
    p.NoPenalty? || p.LinearIncreasingPenalty?
  }

  predicate IsWithdrawAllowed(p: Phase) {
    !p.Idle? && !p.Redeem?
  }

  lemma LinearRises(s: Settings, b: nat, b': nat)
    requires SettingsOk(s) && b <= b' < s.linearPenaltyPhaseDurationBlocks
    ensures LinearIncrease(s, b) <= LinearIncrease(s, b') <= s.penaltyMaxPercentage - s.penaltyMinPercentage
    ensures LinearIncrease(s, 0) == 0
    ensures s.linearPenaltyPhaseDurationBlocks > 1 ==>
              LinearIncrease(s, s.linearPenaltyPhaseDurationBlocks - 1)
              == s.penaltyMaxPercentage - s.penaltyMinPercentage
  {
    var diff: int := s.penaltyMaxPercentage - s.penaltyMinPercentage;
    if s.linearPenaltyPhaseDurationBlocks > 1 {
      var n: int := s.linearPenaltyPhaseDurationBlocks - 1;
      RiseShape(diff, b, b', n);
    }
  }

  /** Blocks only move the phase forward, redeeming starts with the end block and lasts; within the linear phase the
      penalty does not fall, from the minimum in its first block to the maximum in its last. */
  lemma PhasesAdvance(s: Settings, block: nat, block': nat)
    requires SettingsOk(s) && block <= block'
    ensures var p, p' := GetCurrentPhase(s, block), GetCurrentPhase(s, block');
            && Order(p) <= Order(p')
            && (p.LinearIncreasingPenalty? && p'.LinearIncreasingPenalty? ==>
                  s.penaltyMinPercentage <= p.penaltyPercentage <= p'.penaltyPercentage <= s.penaltyMaxPercentage)
    ensures GetCurrentPhase(s, block) == Redeem
       <==> s.startBlock + s.noLimitPhaseDurationBlocks + s.linearPenaltyPhaseDurationBlocks
            + s.fixedPenaltyPhaseDurationBlocks <= block
  {
    hide LinearIncrease;
    var linearStart := s.startBlock + s.noLimitPhaseDurationBlocks;
    if linearStart <= block && block' < linearStart + s.linearPenaltyPhaseDurationBlocks {
      LinearRises(s, block - linearStart, block' - linearStart);
    }
  }

  /** The linear penalty starts at the minimum and, unless the phase is a single block, ends at the maximum. */
  lemma LinearEnds(s: Settings)
    requires SettingsOk(s) && s.linearPenaltyPhaseDurationBlocks > 0
    ensures var start := s.startBlock + s.noLimitPhaseDurationBlocks;
            && GetCurrentPhase(s, start) == LinearIncreasingPenalty(s.penaltyMinPercentage)
            && (s.linearPenaltyPhaseDurationBlocks > 1 ==>
                  GetCurrentPhase(s, start + s.linearPenaltyPhaseDurationBlocks - 1)
                  == LinearIncreasingPenalty(s.penaltyMaxPercentage))
  {
    hide LinearIncrease;
    LinearRises(s, 0, s.linearPenaltyPhaseDurationBlocks - 1);
  }

  /** Which phase a block lies in, and what withdrawing costs in it: nothing at first, then as much as the line from the
      minimum in the first block to the maximum in the last one, rounded down, and then the fixed percentage. */
  lemma PhaseOfBlock(s: Settings, block: nat)
    requires SettingsOk(s)
    ensures var linearStart := s.startBlock + s.noLimitPhaseDurationBlocks;
            var linearEnd := linearStart + s.linearPenaltyPhaseDurationBlocks;
            var end := linearEnd + s.fixedPenaltyPhaseDurationBlocks;
            var p := GetCurrentPhase(s, block);
            && (IsDepositAllowed(p) <==> s.startBlock <= block < linearEnd)
            && (IsWithdrawAllowed(p) <==> s.startBlock <= block < end)
            && (p == Redeem <==> end <= block)
            && IsPenaltyAt(GetPenaltyPercentage(p), s, block)
  {
    if s.linearPenaltyPhaseDurationBlocks > 1 && s.startBlock + s.noLimitPhaseDurationBlocks <= block {
      FloorOf((s.penaltyMaxPercentage - s.penaltyMinPercentage)
              * (block - s.startBlock - s.noLimitPhaseDurationBlocks), s.linearPenaltyPhaseDurationBlocks - 1);
    }
  }

  /** The percentage withheld from a withdrawal, by block. */
  ghost predicate IsPenaltyAt(percentage: nat, s: Settings, block: nat) {
    var linearStart := s.startBlock + s.noLimitPhaseDurationBlocks;
    var duration := s.linearPenaltyPhaseDurationBlocks;
    var linearEnd := linearStart + duration;
    if linearStart <= block < linearEnd then
      if duration == 1 then percentage == s.penaltyMinPercentage
      else IsFloor(percentage - s.penaltyMinPercentage,
                   (s.penaltyMaxPercentage - s.penaltyMinPercentage) * (block - linearStart), duration - 1)
    else if linearEnd <= block < linearEnd + s.fixedPenaltyPhaseDurationBlocks then
      percentage == s.fixedPenaltyPercentage
    else
      percentage == 0
  }

  /** No penalty takes everything. */
  lemma PenaltyBelowAll(s: Settings, block: nat, amount: nat)
    requires SettingsOk(s) && amount > 0
    ensures var percentage := GetPenaltyPercentage(GetCurrentPhase(s, block));
            percentage < MAX_PERCENTAGE && 0 <= amount * percentage / MAX_PERCENTAGE < amount
  {
    hide LinearIncrease;
    PhasesAdvance(s, block, block);
    var percentage := GetPenaltyPercentage(GetCurrentPhase(s, block));
    FloorOf(amount * percentage, MAX_PERCENTAGE);
    FloorNat(amount * percentage, MAX_PERCENTAGE);
    MulLt(percentage, MAX_PERCENTAGE, amount);
    LtOfMul(amount * percentage / MAX_PERCENTAGE, amount, MAX_PERCENTAGE);
  }
}

/** dex/price-discovery/src/lib.rs and redeem_token.rs: deposits of two tokens that buy each other in the end. */
module PriceDiscovery {
  import opened Wrappers
  import opened Arith
  import opened Phases

  datatype Side = Launched | Accepted

  function Other(side: Side): Side {
    if side == Launched then Accepted else Launched
  }

  /** One side's deposits: what the contract holds, the redeem tokens it counts, the penalties it withheld, the redeem
      tokens still in the hands of users, and what was paid out of the balance in redemptions. */
  datatype Books = Books(balance: nat, supply: nat, penalties: nat, outstanding: nat, paid: nat)

  /** The balance is made up of the deposits counted and the penalties; `other` are the books of those who buy from
      it. */
  ghost predicate BooksOk(b: Books, other: Books) {
    && b.balance == b.supply + b.penalties
    && b.outstanding <= b.supply
    && b.paid * other.supply <= b.balance * (other.supply - other.outstanding)
    && (other.supply == other.outstanding ==> b.paid == 0)
  }

  /** While nothing was redeemed, every redeem token counted is in someone's hands. */
  ghost predicate NothingRedeemed(b: Books) {
    b.outstanding == b.supply && b.paid == 0
  }

  /** Whatever was redeemed, the balance covered it. */
  lemma PaidWithinBalance(b: Books, other: Books)
    requires BooksOk(b, other) && BooksOk(other, b)
    ensures b.paid <= b.balance
  {
    if other.supply != other.outstanding {
      MulLe(other.supply - other.outstanding, other.supply, b.balance);
      LeOfMul(b.paid, b.balance, other.supply);
    }
  }

  lemma FreshBooksOk(b: Books, other: Books)
    requires b.balance == b.supply + b.penalties && NothingRedeemed(b) && NothingRedeemed(other)
    ensures BooksOk(b, other)
  {
    assert b.balance * (other.supply - other.outstanding) == 0;
  }

  lemma DepositKeepsBooks(b: Books, other: Books, amount: nat, b': Books)
    requires BooksOk(b, other) && BooksOk(other, b) && NothingRedeemed(b) && NothingRedeemed(other)
    requires b' == b.(balance := b.balance + amount, supply := b.supply + amount, outstanding := b.outstanding + amount)
    ensures BooksOk(b', other) && BooksOk(other, b') && NothingRedeemed(b')
  {
    FreshBooksOk(b', other);
    FreshBooksOk(other, b');
  }

  lemma WithdrawKeepsBooks(b: Books, other: Books, amount: nat, penalty: nat)
    requires BooksOk(b, other) && BooksOk(other, b) && NothingRedeemed(b) && NothingRedeemed(other)
    requires penalty <= amount <= b.outstanding
    ensures amount - penalty <= b.balance && amount <= b.supply
    ensures var b' := b.(balance := b.balance - (amount - penalty), supply := b.supply - amount,
                         outstanding := b.outstanding - amount, penalties := b.penalties + penalty);
            BooksOk(b', other) && BooksOk(other, b') && NothingRedeemed(b')
  {
    var b' := b.(balance := b.balance - (amount - penalty), supply := b.supply - amount,
                 outstanding := b.outstanding - amount, penalties := b.penalties + penalty);
    FreshBooksOk(b', other);
    FreshBooksOk(other, b');
  }

  /** What redeem tokens buy: their share of the opposite balance. */
  function Bought(balance: nat, amount: nat, supply: nat): nat
    requires supply > 0
  {
    FloorNat(balance * amount, supply);
    balance * amount / supply
  }

  /** The share of the opposite balance, rounded down; all tokens together buy all of it. */
  lemma BoughtIs(balance: nat, amount: nat, supply: nat)
    requires supply > 0
    ensures IsFloor(Bought(balance, amount, supply), balance * amount, supply)
    ensures Bought(balance, supply, supply) == balance
  {
    FloorOf(balance * amount, supply);
    FloorExact(balance, balance * supply, supply);
  }

  /** Redeeming burns the tokens but leaves balances and supplies as they are, so every redemption is at the same
      rate. */
  lemma RedeemKeepsBooks(b: Books, other: Books, amount: nat, bought: nat)
    requires BooksOk(b, other) && BooksOk(other, b) && 0 < amount <= other.outstanding
    requires bought == Bought(b.balance, amount, other.supply)
    ensures var other' := other.(outstanding := other.outstanding - amount);
            var b' := b.(paid := b.paid + bought);
            BooksOk(b', other') && BooksOk(other', b') && b'.paid <= b.balance
  {
    FloorOf(b.balance * amount, other.supply);
    PaidGrows(b.paid, bought, other.supply, b.balance, other.supply - other.outstanding, amount);
    hide Bought;
    var other' := other.(outstanding := other.outstanding - amount);
    var b' := b.(paid := b.paid + bought);
    assert other'.supply - other'.outstanding == other.supply - other.outstanding + amount;
    PaidWithinBalance(b', other');
  }

  lemma PaidGrows(paid: int, bought: int, supply: int, balance: int, redeemed: int, amount: int)
    requires paid * supply <= balance * redeemed && bought * supply <= balance * amount
    ensures (paid + bought) * supply <= balance * (redeemed + amount)
  {
  }

  /** Redeeming in parts never buys more than redeeming at once. */
  lemma RedeemInParts(balance: nat, first: nat, second: nat, supply: nat)
    requires supply > 0
    ensures Bought(balance, first, supply) + Bought(balance, second, supply) <= Bought(balance, first + second, supply)
  {
    FloorOf(balance * first, supply);
    FloorOf(balance * second, supply);
    assert balance * (first + second) == balance * first + balance * second;
    FloorGreatest(balance * first / supply + balance * second / supply, balance * (first + second), supply);
  }

  /** What users hold against one side, and what was paid out of it. */
  datatype Users = Users(penalties: nat, outstanding: nat, paid: nat)

  class PriceDiscovery {
    const settings: Settings
    var currentBlock: nat
    var launchedTokenBalance: nat
    var acceptedTokenBalance: nat
    var totalCirculatingSupply: map<Side, nat>
    ghost var launchedUsers: Users
    ghost var acceptedUsers: Users

    function Balance(side: Side): nat
      reads this
    {
      if side == Launched then launchedTokenBalance else acceptedTokenBalance
    }

    function Supply(side: Side): nat
      reads this
    {
      if side in totalCirculatingSupply then totalCirculatingSupply[side] else 0
    }

    ghost function BooksOf(side: Side): Books
      reads this
    {
      var users := if side == Launched then launchedUsers else acceptedUsers;
      Books(Balance(side), Supply(side), users.penalties, users.outstanding, users.paid)
    }

    function Phase(): Phases.Phase
      requires SettingsOk(settings)
      reads this
    {
      GetCurrentPhase(settings, currentBlock)
    }

    ghost predicate Valid()
      reads this
    {
      && SettingsOk(settings)
      && BooksOk(BooksOf(Launched), BooksOf(Accepted)) && BooksOk(BooksOf(Accepted), BooksOf(Launched))
      && (!Phase().Redeem? ==> NothingRedeemed(BooksOf(Launched)) && NothingRedeemed(BooksOf(Accepted)))
    }

    constructor (settings: Settings, currentBlock: nat)
      requires SettingsOk(settings) && currentBlock < settings.startBlock
      ensures Valid() && Phase() == Idle
      ensures BooksOf(Launched) == Books(0, 0, 0, 0, 0) == BooksOf(Accepted)
    {
      hide LinearIncrease, BooksOk;
      this.settings, this.currentBlock := settings, currentBlock;
      launchedTokenBalance, acceptedTokenBalance, totalCirculatingSupply := 0, 0, map[];
      launchedUsers, acceptedUsers := Users(0, 0, 0), Users(0, 0, 0);
      FreshBooksOk(Books(0, 0, 0, 0, 0), Books(0, 0, 0, 0, 0));
    }

    method AdvanceBlock(block: nat)
      requires Valid() && currentBlock <= block
      modifies this`currentBlock
      ensures Valid() && currentBlock == block && Order(old(Phase())) <= Order(Phase())
      ensures BooksOf(Launched) == old(BooksOf(Launched)) && BooksOf(Accepted) == old(BooksOf(Accepted))
    {
      hide BooksOk, GetCurrentPhase;
      PhasesAdvance(settings, currentBlock, block);
      currentBlock := block;
    }

    ghost method SetUsers(side: Side, users: Users)
      modifies this`launchedUsers, this`acceptedUsers
      ensures launchedUsers == (if side == Launched then users else old(launchedUsers))
      ensures acceptedUsers == (if side == Accepted then users else old(acceptedUsers))
    {
      if side == Launched {
        launchedUsers := users;
      } else {
        acceptedUsers := users;
      }
    }

    /** The price of the launched token in the accepted one; there is none without launched tokens. */
    method CalculatePrice() returns (r: Result<nat>)
      requires SettingsOk(settings)
      ensures r.Success? <==> launchedTokenBalance > 0
      ensures r.Success? ==> IsFloor(r.value, acceptedTokenBalance * settings.pricePrecision, launchedTokenBalance)
    {
      if launchedTokenBalance == 0 {
        return Failure;
      }
      MulNat(acceptedTokenBalance, settings.pricePrecision);
      FloorNat(acceptedTokenBalance * settings.pricePrecision, launchedTokenBalance);
      FloorOf(acceptedTokenBalance * settings.pricePrecision, launchedTokenBalance);
      return Success(acceptedTokenBalance * settings.pricePrecision / launchedTokenBalance);
    }

    method SetBalance(side: Side, amount: nat)
      modifies this`launchedTokenBalance, this`acceptedTokenBalance
      ensures launchedTokenBalance == (if side == Launched then amount else old(launchedTokenBalance))
      ensures acceptedTokenBalance == (if side == Accepted then amount else old(acceptedTokenBalance))
    {
      if side == Launched {
        launchedTokenBalance := amount;
      } else {
        acceptedTokenBalance := amount;
      }
    }

    method Deposit(side: Side, amount: nat) returns (ok: bool)
      requires Valid() && amount > 0
      modifies this
      ensures Valid() && currentBlock == old(currentBlock)
      ensures ok <==>
                && IsDepositAllowed(Phase())
                && var (launched, accepted) := Changed(old(launchedTokenBalance), old(acceptedTokenBalance), side,
                                                       amount);
                   && launched > 0
                   && (|| side == Accepted
                       || IsWorthless(launched, accepted, settings.pricePrecision)
                       || IsWorth(launched, accepted, settings.pricePrecision, settings.minLaunchedTokenPrice))
      ensures !ok ==> BooksOf(Launched) == old(BooksOf(Launched)) && BooksOf(Accepted) == old(BooksOf(Accepted))
      ensures ok ==>
                && BooksOf(Other(side)) == old(BooksOf(Other(side)))
                && BooksOf(side) == old(BooksOf(side)).(balance := old(Balance(side)) + amount,
                                                     supply := old(BooksOf(side)).supply + amount,
                                                     outstanding := old(BooksOf(side)).outstanding + amount)
    {
      hide BooksOk, GetCurrentPhase, NothingRedeemed, IsWorth, IsWorthless, IsFloor;
      if !IsDepositAllowed(Phase()) {
        return false;
      }
      ghost var b, other := BooksOf(side), BooksOf(Other(side));
      SetBalance(side, Balance(side) + amount);
      var currentPrice := CalculatePrice();
      if currentPrice.Success? {
        PriceGuards(currentPrice.value, launchedTokenBalance, acceptedTokenBalance, settings.pricePrecision,
                    settings.minLaunchedTokenPrice);
      }
      if currentPrice.Failure?
         || !(currentPrice.value == 0 || currentPrice.value >= settings.minLaunchedTokenPrice || side == Accepted) {
        SetBalance(side, Balance(side) - amount); // the revert
        return false;
      }
      totalCirculatingSupply := totalCirculatingSupply[side := Supply(side) + amount];
      SetUsers(side, Users(b.penalties, b.outstanding + amount, b.paid));
      DepositKeepsBooks(b, other, amount, BooksOf(side));
      return true;
    }

    /** Withdrawing burns the redeem tokens and pays them back less the penalty, which stays in the balance. */
    method Withdraw(side: Side, amount: nat) returns (r: Result<nat>)
      requires Valid() && 0 < amount <= BooksOf(side).outstanding
      modifies this
      ensures Valid() && currentBlock == old(currentBlock)
      ensures r.Success? <==>
                && IsWithdrawAllowed(Phase())
                && var (launched, accepted) := Changed(old(launchedTokenBalance), old(acceptedTokenBalance), side,
                                                       PenaltyOf(settings, currentBlock, amount) - amount);
                   launched > 0 && IsWorth(launched, accepted, settings.pricePrecision, settings.minLaunchedTokenPrice)
      ensures r.Failure? ==> BooksOf(Launched) == old(BooksOf(Launched)) && BooksOf(Accepted) == old(BooksOf(Accepted))
      ensures r.Success? ==>
                var penalty := PenaltyOf(settings, currentBlock, amount);
                && r.value == amount - penalty > 0
                && IsPenaltyOf(penalty, settings, currentBlock, amount)
                && BooksOf(Other(side)) == old(BooksOf(Other(side)))
                && BooksOf(side) == old(BooksOf(side)).(balance := old(Balance(side)) - r.value,
                                                        supply := old(BooksOf(side)).supply - amount,
                                                        outstanding := old(BooksOf(side)).outstanding - amount,
                                                        penalties := old(BooksOf(side)).penalties + penalty)
    {
      hide BooksOk, GetCurrentPhase, NothingRedeemed, IsWorth, IsWorthless, IsFloor, IsPenaltyOf;
      if !IsWithdrawAllowed(Phase()) {
        return Failure;
      }
      PenaltyBelowAll(settings, currentBlock, amount);
      PenaltyOfIs(settings, currentBlock, amount);
      var penaltyAmount: nat := amount * GetPenaltyPercentage(Phase()) / MAX_PERCENTAGE;
      var withdrawAmount := amount - penaltyAmount;
      ghost var b := BooksOf(side);
      WithdrawKeepsBooks(b, BooksOf(Other(side)), amount, penaltyAmount);
      SetBalance(side, Balance(side) - withdrawAmount);
      var currentPrice := CalculatePrice();
      if currentPrice.Success? {
        PriceGuards(currentPrice.value, launchedTokenBalance, acceptedTokenBalance, settings.pricePrecision,
                    settings.minLaunchedTokenPrice);
      }
      if currentPrice.Failure? || currentPrice.value < settings.minLaunchedTokenPrice {
        SetBalance(side, Balance(side) + withdrawAmount); // the revert
        return Failure;
      }
      totalCirculatingSupply := totalCirculatingSupply[side := Supply(side) - amount];
      SetUsers(side, Users(b.penalties + penaltyAmount, b.outstanding - amount, b.paid));
      return Success(withdrawAmount);
    }

    /** Depositors of one token get their share of the other; what all redemptions together pay never exceeds its
        balance. */
    method Redeem(side: Side, amount: nat) returns (r: Result<nat>)
      requires Valid() && 0 < amount <= BooksOf(side).outstanding
      modifies this`launchedUsers, this`acceptedUsers
      ensures Valid()
      ensures r.Success? <==> Phase().Redeem?
      ensures r.Failure? ==> BooksOf(Launched) == old(BooksOf(Launched)) && BooksOf(Accepted) == old(BooksOf(Accepted))
      ensures r.Success? ==>
                && 0 < Supply(side)
                && r.value == Bought(Balance(Other(side)), amount, Supply(side))
                && IsFloor(r.value, Balance(Other(side)) * amount, Supply(side))
                && (amount == Supply(side) ==> r.value == Balance(Other(side)))
                && BooksOf(side) == old(BooksOf(side)).(outstanding := old(BooksOf(side)).outstanding - amount)
                && BooksOf(Other(side)) == old(BooksOf(Other(side))).(paid := old(BooksOf(Other(side))).paid + r.value)
                && BooksOf(Other(side)).paid <= Balance(Other(side))
    {
      hide BooksOk, GetCurrentPhase, NothingRedeemed, Bought, IsFloor;
      if !Phase().Redeem? {
        return Failure;
      }
      ghost var b, other := BooksOf(side), BooksOf(Other(side));
      SupplyPositive(b, other);
      BoughtIs(Balance(Other(side)), amount, Supply(side));
      var boughtTokens := Bought(Balance(Other(side)), amount, Supply(side));
      RedeemKeepsBooks(other, b, amount, boughtTokens);
      SetUsers(side, Users(b.penalties, b.outstanding - amount, b.paid));
      SetUsers(Other(side), Users(other.penalties, other.outstanding, other.paid + boughtTokens));
      return Success(boughtTokens);
    }
  }

  /** Both balances once one side's has changed. */
  function Changed(launched: int, accepted: int, side: Side, change: int): (int, int) {
    if side == Launched then (launched + change, accepted) else (launched, accepted + change)
  }

  /** The accepted tokens pay at least `price` per whole launched token. */
  ghost predicate IsWorth(launched: int, accepted: int, precision: int, price: int) {
    price * launched <= accepted * precision
  }

  /** They do not even pay the smallest unit. */
  ghost predicate IsWorthless(launched: int, accepted: int, precision: int) {
    accepted * precision < launched
  }

  /** Comparing the computed price is comparing without rounding. */
  lemma PriceGuards(price: nat, launched: nat, accepted: nat, precision: nat, least: nat)
    requires launched > 0 && IsFloor(price, accepted * precision, launched)
    ensures price >= least <==> IsWorth(launched, accepted, precision, least)
    ensures price == 0 <==> IsWorthless(launched, accepted, precision)
  {
    FloorExact(price, accepted * precision, launched);
    FloorGreatest(least, accepted * precision, launched);
    FloorGreatest(1, accepted * precision, launched);
  }

  function PenaltyOf(s: Settings, block: nat, amount: nat): (r: nat)
    requires SettingsOk(s) && amount > 0
    ensures r < amount
  {
    PenaltyBelowAll(s, block, amount);
    amount * GetPenaltyPercentage(GetCurrentPhase(s, block)) / MAX_PERCENTAGE
  }

  /** The floor of the amount times the percentage of the block. */
  ghost predicate IsPenaltyOf(penalty: nat, s: Settings, block: nat, amount: nat) {
    exists percentage: nat ::
      IsPenaltyAt(percentage, s, block) && IsFloor(penalty, amount * percentage, MAX_PERCENTAGE)
  }

  lemma PenaltyOfIs(s: Settings, block: nat, amount: nat)
    requires SettingsOk(s) && amount > 0
    ensures IsPenaltyOf(PenaltyOf(s, block, amount), s, block, amount)
  {
    hide IsPenaltyAt, GetCurrentPhase;
    PhaseOfBlock(s, block);
    FloorOf(amount * GetPenaltyPercentage(GetCurrentPhase(s, block)), MAX_PERCENTAGE);
  }

  lemma SupplyPositive(b: Books, other: Books)
    requires BooksOk(b, other) && 0 < b.outstanding
    ensures 0 < b.supply
  {
  }
}
