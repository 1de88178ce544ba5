/** The endpoints of energy-factory, token-unstake and lkmex-transfer over the storage they share in effect. `held`
    follows attribution: the locked tokens each user's energy entry answers for. */
module LockedAssets {
  import opened Chain
  import opened Wrappers
  import opened Arith
  import opened Units
  import opened EnergyLedger
  import opened LockOptions
  import opened LockedTokens

  // ---- What the endpoints do to the energy entry of the user they work for ----

  method LockBaseAsset(energy: Energy, ghost tokens: multiset<nat>, payment: Payment, currentEpoch: nat)
    requires energy.lastUpdateEpoch == currentEpoch <= payment.unlockEpoch && Tracks(energy.Entry(), tokens)
    modifies energy
    ensures energy.lastUpdateEpoch == currentEpoch && Tracks(energy.Entry(), tokens + payment.Tokens())
  {
    ghost var before := energy.Entry();
    energy.AddAfterTokenLock(payment.amount, payment.unlockEpoch, currentEpoch);
    AddedTracks(before, energy.Entry(), tokens, payment.amount, payment.unlockEpoch);
  }

  method TakeUnlocked(energy: Energy, ghost tokens: multiset<nat>, payment: Payment, currentEpoch: nat)
    requires energy.lastUpdateEpoch == currentEpoch && Tracks(energy.Entry(), tokens) && payment.Tokens() <= tokens
    requires payment.unlockEpoch <= currentEpoch
    modifies energy
    ensures energy.lastUpdateEpoch == currentEpoch && Tracks(energy.Entry(), tokens - payment.Tokens())
  {
    ghost var before := energy.Entry();
    PileWithin(payment.amount, payment.unlockEpoch, tokens);
    energy.RefundAfterTokenUnlock(payment.amount, payment.unlockEpoch, currentEpoch);
    RefundedTracks(before, energy.Entry(), tokens, payment.amount, payment.unlockEpoch);
  }

  method TakeEarly(energy: Energy, ghost tokens: multiset<nat>, payment: Payment, currentEpoch: nat)
    requires energy.lastUpdateEpoch == currentEpoch && Tracks(energy.Entry(), tokens) && payment.Tokens() <= tokens
    requires currentEpoch <= payment.unlockEpoch
    modifies energy
    ensures energy.lastUpdateEpoch == currentEpoch && Tracks(energy.Entry(), tokens - payment.Tokens())
  {
    ghost var before := energy.Entry();
    PileWithin(payment.amount, payment.unlockEpoch, tokens);
    energy.DepleteAfterEarlyUnlock(payment.amount, payment.unlockEpoch, currentEpoch);
    RemovedTracks(before, energy.Entry(), tokens, payment.amount, payment.unlockEpoch);
  }

  method TakeAny(energy: Energy, ghost tokens: multiset<nat>, payment: Payment, currentEpoch: nat)
    requires energy.lastUpdateEpoch == currentEpoch && Tracks(energy.Entry(), tokens) && payment.Tokens() <= tokens
    modifies energy
    ensures energy.lastUpdateEpoch == currentEpoch && Tracks(energy.Entry(), tokens - payment.Tokens())
  {
    ghost var before := energy.Entry();
    PileWithin(payment.amount, payment.unlockEpoch, tokens);
    energy.UpdateAfterUnlockAny(payment.amount, payment.unlockEpoch, currentEpoch);
    RemovedTracks(before, energy.Entry(), tokens, payment.amount, payment.unlockEpoch);
  }

  method ExtendNewTokenPeriod(energy: Energy, ghost tokens: multiset<nat>, payment: Payment, newUnlockEpoch: nat,
                              currentEpoch: nat)
    requires energy.lastUpdateEpoch == currentEpoch <= newUnlockEpoch && Tracks(energy.Entry(), tokens)
    requires payment.Tokens() <= tokens
    modifies energy
    ensures energy.lastUpdateEpoch == currentEpoch
    ensures Tracks(energy.Entry(), tokens - payment.Tokens() + Payment(payment.amount, newUnlockEpoch).Tokens())
  {
    ghost var before := energy.Entry();
    PileWithin(payment.amount, payment.unlockEpoch, tokens);
    energy.UpdateAfterUnlockEpochChange(payment.amount, payment.unlockEpoch, newUnlockEpoch, currentEpoch);
    MovedTracks(before, energy.Entry(), tokens, payment, newUnlockEpoch);
  }

  method RefundAll(energy: Energy, ghost tokens: multiset<nat>, payments: seq<Payment>,
                   currentEpoch: nat) returns (r: Result<nat>)
    requires energy.lastUpdateEpoch == currentEpoch && Tracks(energy.Entry(), tokens)
    requires AllTokens(payments) <= tokens
    modifies energy
    ensures r.Success? <==> forall p :: p in payments ==> p.amount > 0 && p.unlockEpoch <= currentEpoch
    ensures r.Success? ==>
              && r.value == |AllTokens(payments)|
              && energy.lastUpdateEpoch == currentEpoch
              && Tracks(energy.Entry(), tokens - AllTokens(payments))
  {
    hide Tracks, Worth, Pile, AllTokens;
    var output := 0;
    ghost var left := tokens;
    NothingTaken(payments, tokens);
    for i := 0 to |payments|
      invariant energy.lastUpdateEpoch == currentEpoch && Tracks(energy.Entry(), left)
      invariant left == tokens - AllTokens(payments[..i])
      invariant forall j :: 0 <= j < i ==> payments[j].amount > 0 && payments[j].unlockEpoch <= currentEpoch
      invariant output == |AllTokens(payments[..i])|
    {
      var payment := payments[i];
      if currentEpoch < payment.unlockEpoch || payment.amount == 0 {
        return Failure;
      }
      NextPayment(payments, i, tokens);
      TakeUnlocked(energy, left, payment, currentEpoch);
      left := left - payment.Tokens();
      output := output + payment.amount;
    }
    assert payments[..|payments|] == payments;
    return Success(output);
  }

  /** The payment loop of a merge: every part leaves the ledger, their running average is kept. */
  method TakeParts(energy: Energy, ghost tokens: multiset<nat>, payments: seq<Payment>, currentEpoch: nat)
    returns (r: Result<Payment>)
    requires energy.lastUpdateEpoch == currentEpoch && Tracks(energy.Entry(), tokens)
    requires payments != [] && Positive(payments) && AllTokens(payments) <= tokens
    modifies energy
    ensures r.Success? <==> forall p :: p in payments ==> currentEpoch < p.unlockEpoch
    ensures r.Success? ==>
              && r.value == Merged(payments, |payments|)
              && energy.lastUpdateEpoch == currentEpoch
              && Tracks(energy.Entry(), tokens - AllTokens(payments))
  {
    hide Tracks, Worth, Pile, AllTokens, MergeWith, Merged;
    var outputPair := payments[0];
    ghost var left := tokens;
    NothingTaken(payments, tokens);
    for i := 0 to |payments|
      invariant energy.lastUpdateEpoch == currentEpoch && Tracks(energy.Entry(), left)
      invariant left == tokens - AllTokens(payments[..i])
      invariant forall j :: 0 <= j < i ==> currentEpoch < payments[j].unlockEpoch
      invariant outputPair == if i == 0 then payments[0] else Merged(payments, i)
    {
      var payment := payments[i];
      if payment.unlockEpoch <= currentEpoch {
        return Failure;
      }
      NextPayment(payments, i, tokens);
      TakeAny(energy, left, payment, currentEpoch);
      left := left - payment.Tokens();
      MergedStep(payments, i);
      if i > 0 {
        outputPair := MergeWith(outputPair, payment);
      }
    }
    return Success(outputPair);
  }

  method MergeInto(energy: Energy, ghost tokens: multiset<nat>, payments: seq<Payment>, currentEpoch: nat,
                   t: seq<LockOption>)
    returns (r: Result<Payment>)
    requires energy.lastUpdateEpoch == currentEpoch && Tracks(energy.Entry(), tokens)
    requires payments != [] && Positive(payments) && AllTokens(payments) <= tokens
    requires IsTable(t) && AllInHorizon(tokens, currentEpoch, t)
    modifies energy
    ensures r.Success? <==> forall p :: p in payments ==> currentEpoch < p.unlockEpoch
    ensures r.Success? ==>
              && r.value.amount == |AllTokens(payments)|
              && r.value.unlockEpoch ==
                   UnlockEpochToStartOfMonthUpperEstimate(Merged(payments, |payments|).unlockEpoch, currentEpoch, t)
              && currentEpoch < r.value.unlockEpoch
              && energy.lastUpdateEpoch == currentEpoch
              && Tracks(energy.Entry(), tokens - AllTokens(payments) + r.value.Tokens())
              && AllInHorizon(tokens - AllTokens(payments) + r.value.Tokens(), currentEpoch, t)
  {
    hide Tracks, Worth, AllTokens, AllInHorizon, InHorizon, MergeWith, UnlockEpochToStartOfMonthUpperEstimate;
    var outputPair := TakeParts(energy, tokens, payments, currentEpoch);
    if outputPair.Failure? {
      return Failure;
    }
    MergedInHorizon(payments, tokens, currentEpoch, t);
    var unlockEpoch := UnlockEpochToStartOfMonthUpperEstimate(outputPair.value.unlockEpoch, currentEpoch, t);
    var merged := Payment(outputPair.value.amount, unlockEpoch);
    LockBaseAsset(energy, tokens - AllTokens(payments), merged, currentEpoch);
    return Success(merged);
  }

  /** Tokens coming back into a ledger, matured ones with the energy they have lost since they matured. */
  method ReturnAny(energy: Energy, ghost tokens: multiset<nat>, payment: Payment, currentEpoch: nat)
    requires energy.lastUpdateEpoch == currentEpoch && Tracks(energy.Entry(), tokens)
    modifies energy
    ensures energy.lastUpdateEpoch == currentEpoch && Tracks(energy.Entry(), tokens + payment.Tokens())
  {
    ghost var before := energy.Entry();
    if payment.unlockEpoch >= currentEpoch {
      energy.AddAfterTokenLock(payment.amount, payment.unlockEpoch, currentEpoch);
    } else {
      var epochDiff := currentEpoch - payment.unlockEpoch;
      MulNat(payment.amount, epochDiff);
      var energyToReduce := payment.amount * epochDiff;
      energy.AddEnergyRaw(payment.amount, 0);
      energy.RemoveEnergyRaw(0, energyToReduce);
      assert payment.amount * epochDiff == -(payment.amount * (payment.unlockEpoch - currentEpoch));
    }
    AddedTracks(before, energy.Entry(), tokens, payment.amount, payment.unlockEpoch);
  }

  /** The loop of a cancelled unbonding: all locked tokens of the queue come back. */
  method ReturnQueue(energy: Energy, ghost tokens: multiset<nat>, entries: seq<UnstakePair>, currentEpoch: nat)
    returns (outputPayments: seq<Payment>)
    requires energy.lastUpdateEpoch == currentEpoch && Tracks(energy.Entry(), tokens)
    modifies energy
    ensures outputPayments == LockedOf(entries)
    ensures energy.lastUpdateEpoch == currentEpoch && Tracks(energy.Entry(), tokens + AllTokens(LockedOf(entries)))
  {
    hide Tracks, Worth, Pile, AllTokens;
    outputPayments := [];
    ghost var all := LockedOf(entries);
    ghost var now := tokens;
    NothingReturned(all, tokens);
    for i := 0 to |entries|
      invariant energy.lastUpdateEpoch == currentEpoch && Tracks(energy.Entry(), now)
      invariant now == tokens + AllTokens(all[..i])
      invariant outputPayments == all[..i]
    {
      var lockedTokens := entries[i].locked;
      NextReturned(all, i, tokens);
      ReturnAny(energy, now, lockedTokens, currentEpoch);
      now := now + lockedTokens.Tokens();
      outputPayments := outputPayments + [lockedTokens];
    }
  }

  /** The loop of an arriving transfer. */
  method AddEnergyToDestination(energy: Energy, ghost tokens: multiset<nat>, payments: seq<Payment>, currentEpoch: nat)
    requires energy.lastUpdateEpoch == currentEpoch && Tracks(energy.Entry(), tokens)
    modifies energy
    ensures energy.lastUpdateEpoch == currentEpoch && Tracks(energy.Entry(), tokens + AllTokens(payments))
  {
    hide Tracks, Worth, Pile, AllTokens;
    ghost var now := tokens;
    NothingReturned(payments, tokens);
    for i := 0 to |payments|
      invariant energy.lastUpdateEpoch == currentEpoch && Tracks(energy.Entry(), now)
      invariant now == tokens + AllTokens(payments[..i])
    {
      var token := payments[i];
      NextReturned(payments, i, tokens);
      AddTransferred(energy, now, token, currentEpoch);
      now := now + token.Tokens();
    }
  }

  method AddTransferred(energy: Energy, ghost tokens: multiset<nat>, token: Payment, currentEpoch: nat)
    requires energy.lastUpdateEpoch == currentEpoch && Tracks(energy.Entry(), tokens)
    modifies energy
    ensures energy.lastUpdateEpoch == currentEpoch && Tracks(energy.Entry(), tokens + token.Tokens())
  {
    ghost var before := energy.Entry();
    if token.unlockEpoch > currentEpoch {
      energy.AddAfterTokenLock(token.amount, token.unlockEpoch, currentEpoch);
    } else {
      var epochDiff := currentEpoch - token.unlockEpoch;
      MulNat(token.amount, epochDiff);
      var simulatedDepleteAmount := token.amount * epochDiff;
      energy.RemoveEnergyRaw(0, simulatedDepleteAmount);
      energy.AddEnergyRaw(token.amount, 0);
      assert token.amount * epochDiff == -(token.amount * (token.unlockEpoch - currentEpoch));
    }
    AddedTracks(before, energy.Entry(), tokens, token.amount, token.unlockEpoch);
  }

  /** The loop of a leaving transfer: only tokens that are still locked may go. */
  method DeductEnergyFromSender(energy: Energy, ghost tokens: multiset<nat>, payments: seq<Payment>, currentEpoch: nat)
    returns (ok: bool)
    requires energy.lastUpdateEpoch == currentEpoch && Tracks(energy.Entry(), tokens)
    requires AllTokens(payments) <= tokens
    modifies energy
    ensures ok <==> forall p :: p in payments ==> currentEpoch < p.unlockEpoch
    ensures ok ==> energy.lastUpdateEpoch == currentEpoch && Tracks(energy.Entry(), tokens - AllTokens(payments))
  {
    hide Tracks, Worth, Pile, AllTokens;
    ghost var left := tokens;
    NothingTaken(payments, tokens);
    for i := 0 to |payments|
      invariant energy.lastUpdateEpoch == currentEpoch && Tracks(energy.Entry(), left)
      invariant left == tokens - AllTokens(payments[..i])
      invariant forall j :: 0 <= j < i ==> currentEpoch < payments[j].unlockEpoch
    {
      var token := payments[i];
      if token.unlockEpoch <= currentEpoch {
        return false;
      }
      NextPayment(payments, i, tokens);
      TakeEarly(energy, left, token, currentEpoch);
      left := left - token.Tokens();
    }
    return true;
  }

  class LockedAssetContracts {
    const unbondEpochs: nat
    const feesBurnPercentage: nat
    const minLockEpochs: nat
    const epochsCooldownDuration: nat
    var currentEpoch: nat
    var lockOptions: seq<LockOption>
    var userEnergy: map<Address, EnergyEntry>
    var unlockedTokensForUser: map<Address, seq<UnstakePair>>
    var lockedFunds: map<(Address, Address), LockedFunds>
    var senderLastTransferEpoch: map<Address, nat>
    var receiverLastTransferEpoch: map<Address, nat>
    ghost var held: Holdings

    ghost predicate Valid()
      reads this
    {
      && feesBurnPercentage <= MAX_PENALTY_PERCENTAGE
      && IsTable(lockOptions)
      && LedgerOk(userEnergy, held, currentEpoch, lockOptions)
      && QueuesOk(unlockedTokensForUser, currentEpoch, unbondEpochs, lockOptions)
      && FundsOk(lockedFunds, currentEpoch, lockOptions)
      && InThePast(senderLastTransferEpoch, currentEpoch) && InThePast(receiverLastTransferEpoch, currentEpoch)
    }

    ghost function HeldBy(user: Address): multiset<nat>
      reads this
    {
      Held(held, user)
    }

    function Queue(user: Address): seq<UnstakePair>
      reads this
    {
      if user in unlockedTokensForUser then unlockedTokensForUser[user] else []
    }

    constructor (options: seq<LockOption>, unbondEpochs: nat, feesBurnPercentage: nat, minLockEpochs: nat,
                 epochsCooldownDuration: nat)
      requires IsTable(options) && feesBurnPercentage <= MAX_PENALTY_PERCENTAGE
      ensures Valid() && held == map[] && userEnergy == map[] && lockOptions == options
    {
      this.unbondEpochs, this.feesBurnPercentage := unbondEpochs, feesBurnPercentage;
      this.minLockEpochs, this.epochsCooldownDuration := minLockEpochs, epochsCooldownDuration;
      senderLastTransferEpoch, receiverLastTransferEpoch := map[], map[];
      currentEpoch, lockOptions := 0, options;
      userEnergy, unlockedTokensForUser, lockedFunds, held := map[], map[], map[], map[];
    }

    method AdvanceEpoch(epoch: nat)
      requires Valid() && currentEpoch <= epoch
      modifies this`currentEpoch
      ensures Valid() && currentEpoch == epoch
    {
      LedgerOutlives(userEnergy, held, currentEpoch, lockOptions, epoch, lockOptions);
      QueuesOutlive(unlockedTokensForUser, currentEpoch, unbondEpochs, lockOptions, epoch, lockOptions);
      FundsOutlive(lockedFunds, currentEpoch, lockOptions, epoch, lockOptions);
      currentEpoch := epoch;
    }

    method AddLockOptionsEndpoint(newOptions: seq<LockOption>) returns (ok: bool)
      requires Valid()
      modifies this`lockOptions
      ensures Valid()
      ensures ok <==> Arrangeable(multiset(old(lockOptions) + newOptions))
      ensures ok ==> multiset(lockOptions) == multiset(old(lockOptions) + newOptions)
      ensures !ok ==> lockOptions == old(lockOptions)
    {
      var r := AddLockOptions(lockOptions, newOptions);
      if r.Failure? {
        return false;
      }
      OptionsOnlyGrow(lockOptions, multiset(newOptions), r.value);
      LedgerOutlives(userEnergy, held, currentEpoch, lockOptions, currentEpoch, r.value);
      QueuesOutlive(unlockedTokensForUser, currentEpoch, unbondEpochs, lockOptions, currentEpoch, r.value);
      FundsOutlive(lockedFunds, currentEpoch, lockOptions, currentEpoch, r.value);
      lockOptions := r.value;
      return true;
    }

    method RequireIsListedLockOption(lockEpochs: nat) returns (listed: bool)
      ensures listed <==> IsListed(lockOptions, lockEpochs)
    {
      for i := 0 to |lockOptions|
        invariant forall j :: 0 <= j < i ==> lockOptions[j].lockEpochs != lockEpochs
      {
        if lockOptions[i].lockEpochs == lockEpochs {
          return true;
        }
      }
      return false;
    }

    /** The unlock epoch of a new lock: the start of the month it would end in. */
    method ChooseUnlockEpoch(lockEpochs: nat) returns (r: Result<nat>)
      requires IsTable(lockOptions)
      ensures r.Success? <==> IsListed(lockOptions, lockEpochs)
      ensures r.Success? ==>
                && r.value == UnlockEpochToStartOfMonth(currentEpoch + lockEpochs) > currentEpoch
                && InHorizon(r.value, currentEpoch, lockOptions)
    {
      var listed := RequireIsListedLockOption(lockEpochs);
      if !listed {
        return Failure;
      }
      StartOfMonthInHorizon(lockEpochs, currentEpoch, lockOptions);
      var unlockEpoch := UnlockEpochToStartOfMonth(currentEpoch + lockEpochs);
      assert unlockEpoch > currentEpoch;
      return Success(unlockEpoch);
    }

    method GetUpdatedEnergyEntryForUser(user: Address) returns (energy: Energy)
      requires Valid()
      ensures fresh(energy) && energy.lastUpdateEpoch == currentEpoch && Tracks(energy.Entry(), HeldBy(user))
      ensures AllInHorizon(HeldBy(user), currentEpoch, lockOptions)
    {
      if user in userEnergy {
        energy := new Energy(userEnergy[user]);
        energy.Deplete(currentEpoch);
        DepletedTracks(userEnergy[user], energy.Entry(), HeldBy(user));
      } else {
        energy := new Energy(EnergyEntry(0, currentEpoch, 0));
      }
    }

    /** Stores an entry that is right for `tokens`, which the user answers for from now on. */
    method SetEnergyEntry(user: Address, energy: Energy, ghost tokens: multiset<nat>)
      requires Valid() && energy.lastUpdateEpoch <= currentEpoch && Tracks(energy.Entry(), tokens)
      requires AllInHorizon(tokens, currentEpoch, lockOptions)
      modifies this`userEnergy, this`held
      ensures Valid()
      ensures userEnergy == old(userEnergy)[user := energy.Entry()] && held == old(held)[user := tokens]
    {
      LedgerUpdated(userEnergy, held, currentEpoch, lockOptions, user, energy.Entry(), tokens);
      userEnergy := userEnergy[user := energy.Entry()];
      held := held[user := tokens];
    }

    /** New locked tokens on top of `rest`, which the entry is right for. */
    method StoreLocked(user: Address, energy: Energy, ghost rest: multiset<nat>, locked: Payment)
      requires Valid() && energy.lastUpdateEpoch == currentEpoch && Tracks(energy.Entry(), rest)
      requires AllInHorizon(rest, currentEpoch, lockOptions)
      requires currentEpoch < locked.unlockEpoch && InHorizon(locked.unlockEpoch, currentEpoch, lockOptions)
      modifies this`userEnergy, this`held, energy
      ensures Valid() && held == old(held)[user := rest + locked.Tokens()]
      ensures OnlyEntryOf(old(userEnergy), userEnergy, user, currentEpoch)
    {
      hide Tracks, Worth, Pile, AllInHorizon, InHorizon, LedgerOk, QueuesOk, FundsOk;
      LockBaseAsset(energy, rest, locked, currentEpoch);
      HorizonKept(rest, multiset{}, locked, currentEpoch, lockOptions);
      SetEnergyEntry(user, energy, rest + locked.Tokens());
    }

    // ---- Locking and unlocking ----

    method LockTokens(destAddress: Address, amount: nat, lockEpochs: nat) returns (r: Result<Payment>)
      requires Valid()
      modifies this`userEnergy, this`held
      ensures Valid()
      ensures r.Success? <==> amount > 0 && IsListed(lockOptions, lockEpochs)
      ensures r.Failure? ==> userEnergy == old(userEnergy) && held == old(held)
      ensures r.Success? ==>
                && r.value == Payment(amount, UnlockEpochToStartOfMonth(currentEpoch + lockEpochs))
                && r.value.unlockEpoch > currentEpoch
                && held == old(held)[destAddress := old(HeldBy(destAddress)) + r.value.Tokens()]
                && OnlyEntryOf(old(userEnergy), userEnergy, destAddress, currentEpoch)
    {
      hide Tracks, Worth, Pile, AllTokens, AllInHorizon, LedgerOk, QueuesOk, FundsOk;
      var unlockEpoch := ChooseUnlockEpoch(lockEpochs);
      if unlockEpoch.Failure? || amount == 0 {
        return Failure;
      }
      var energy := GetUpdatedEnergyEntryForUser(destAddress);
      ghost var tokens := HeldBy(destAddress);
      var payment := Payment(amount, unlockEpoch.value);
      StoreLocked(destAddress, energy, tokens, payment);
      return Success(payment);
    }

    method ExtendLockPeriod(user: Address, payment: Payment, lockEpochs: nat) returns (r: Result<Payment>)
      requires Valid() && payment.Tokens() <= HeldBy(user)
      modifies this`userEnergy, this`held
      ensures Valid()
      ensures r.Success? <==>
                && payment.amount > 0
                && IsListed(lockOptions, lockEpochs)
                && payment.unlockEpoch < UnlockEpochToStartOfMonth(currentEpoch + lockEpochs)
      ensures r.Failure? ==> userEnergy == old(userEnergy) && held == old(held)
      ensures r.Success? ==>
                && r.value == Payment(payment.amount, UnlockEpochToStartOfMonth(currentEpoch + lockEpochs))
                && r.value.unlockEpoch > currentEpoch
                && held == old(held)[user := old(HeldBy(user)) - payment.Tokens() + r.value.Tokens()]
                && OnlyEntryOf(old(userEnergy), userEnergy, user, currentEpoch)
    {
      hide Tracks, Worth, Pile, AllTokens, AllInHorizon, LedgerOk, QueuesOk, FundsOk;
      var unlockEpoch := ChooseUnlockEpoch(lockEpochs);
      if unlockEpoch.Failure? || unlockEpoch.value <= payment.unlockEpoch || payment.amount == 0 {
        return Failure;
      }
      var energy := GetUpdatedEnergyEntryForUser(user);
      ghost var tokens := HeldBy(user);
      var extended := Payment(payment.amount, unlockEpoch.value);
      ExtendNewTokenPeriod(energy, tokens, payment, unlockEpoch.value, currentEpoch);
      HorizonKept(tokens, payment.Tokens(), extended, currentEpoch, lockOptions);
      SetEnergyEntry(user, energy, tokens - payment.Tokens() + extended.Tokens());
      return Success(extended);
    }

    /** Matured tokens come out one to one; the whole call reverts if one payment has not matured. */
    method UnlockTokens(caller: Address, payments: seq<Payment>) returns (r: Result<nat>)
      requires Valid() && AllTokens(payments) <= HeldBy(caller)
      modifies this`userEnergy, this`held
      ensures Valid()
      ensures r.Success? <==>
              payments != [] && forall p :: p in payments ==> p.amount > 0 && p.unlockEpoch <= currentEpoch
      ensures r.Failure? ==> userEnergy == old(userEnergy) && held == old(held)
      ensures r.Success? ==>
                && r.value == |AllTokens(payments)|
                && held == old(held)[caller := old(HeldBy(caller)) - AllTokens(payments)]
                && OnlyEntryOf(old(userEnergy), userEnergy, caller, currentEpoch)
    {
      hide Tracks, Worth, Pile, AllTokens, AllInHorizon, LedgerOk, QueuesOk, FundsOk;
      if payments == [] {
        return Failure;
      }
      var energy := GetUpdatedEnergyEntryForUser(caller);
      ghost var tokens := HeldBy(caller);
      r := RefundAll(energy, tokens, payments, currentEpoch);
      if r.Success? {
        HorizonKeptBySome(tokens, AllTokens(payments), currentEpoch, lockOptions);
        SetEnergyEntry(caller, energy, tokens - AllTokens(payments));
      }
    }

    /** One payment out of many: the tokens of the parts, at the rounded-up average of their unlock epochs, moved to a
        month boundary. */
    method MergeTokens(caller: Address, payments: seq<Payment>) returns (r: Result<Payment>)
      requires Valid() && AllTokens(payments) <= HeldBy(caller) && Positive(payments)
      modifies this`userEnergy, this`held
      ensures Valid()
      ensures r.Success? <==>
              payments != [] && forall p :: p in payments ==> currentEpoch < p.unlockEpoch
      ensures r.Failure? ==> userEnergy == old(userEnergy) && held == old(held)
      ensures r.Success? ==>
                && r.value.amount == |AllTokens(payments)|
                && r.value.unlockEpoch ==
                     UnlockEpochToStartOfMonthUpperEstimate(Merged(payments, |payments|).unlockEpoch, currentEpoch,
                                                            lockOptions)
                && currentEpoch < r.value.unlockEpoch
                && held == old(held)[caller := old(HeldBy(caller)) - AllTokens(payments) + r.value.Tokens()]
                && OnlyEntryOf(old(userEnergy), userEnergy, caller, currentEpoch)
    {
      hide Tracks, Worth, Pile, AllTokens, AllInHorizon, LedgerOk, QueuesOk, FundsOk;
      if payments == [] {
        return Failure;
      }
      var energy := GetUpdatedEnergyEntryForUser(caller);
      ghost var tokens := HeldBy(caller);
      r := MergeInto(energy, tokens, payments, currentEpoch, lockOptions);
      if r.Success? {
        SetEnergyEntry(caller, energy, tokens - AllTokens(payments) + r.value.Tokens());
      }
    }

    // ---- Early unlocks and reductions ----

    /** Takes the tokens out of the ledger and charges the penalty. The horizon every attributed token keeps to makes
        the remaining lock one the penalty curve covers, so that check of the contract never fires. */
    method ReduceLockPeriodCommon(caller: Address, payment: Payment, optNewLockPeriod: Option<nat>)
      returns (r: Result<LockReduceResult>, energy: Energy)
      requires Valid() && payment.Tokens() <= HeldBy(caller)
      requires optNewLockPeriod.Some? ==> IsListed(lockOptions, optNewLockPeriod.value)
      ensures fresh(energy)
      ensures payment.amount > 0 ==> payment.unlockEpoch <= currentEpoch + LongestLock(lockOptions)
      ensures r.Success? <==>
                CanReduce(lockOptions, payment, currentEpoch, NewLockEpochs(optNewLockPeriod, currentEpoch))
      ensures r.Success? ==>
                && energy.lastUpdateEpoch == currentEpoch && Tracks(energy.Entry(), HeldBy(caller) - payment.Tokens())
                && r.value.newLockEpochs == NewLockEpochs(optNewLockPeriod, currentEpoch)
                && r.value.unlockedTokens == payment.amount
                     - PenaltyAmount(lockOptions, payment.amount, payment.unlockEpoch - currentEpoch,
                                     r.value.newLockEpochs)
                && IsPenaltyAmount(payment.amount - r.value.unlockedTokens, lockOptions, payment.amount,
                                   payment.unlockEpoch - currentEpoch, r.value.newLockEpochs)
    {
      hide Tracks, Worth, Pile, AllTokens, LedgerOk, QueuesOk, FundsOk, PenaltyAmount, IsPenaltyAmount;
      energy := GetUpdatedEnergyEntryForUser(caller);
      ghost var tokens := HeldBy(caller);
      PileWithin(payment.amount, payment.unlockEpoch, tokens);
      if payment.amount == 0 || payment.unlockEpoch <= currentEpoch {
        return Failure, energy;
      }
      assert InHorizon(payment.unlockEpoch, currentEpoch, lockOptions);
      var newLockEpochs := NewLockEpochs(optNewLockPeriod, currentEpoch);
      var prevLockEpochs := payment.unlockEpoch - currentEpoch;
      if prevLockEpochs <= newLockEpochs {
        return Failure, energy;
      }
      TakeEarly(energy, tokens, payment, currentEpoch);
      var penaltyAmount := CalculatePenaltyAmount(lockOptions, payment.amount, prevLockEpochs, newLockEpochs);
      if payment.amount <= penaltyAmount.value {
        return Failure, energy;
      }
      return Success(LockReduceResult(newLockEpochs, payment.amount - penaltyAmount.value)), energy;
    }

    /** The locked tokens leave the ledger and wait in the queue, against what is left of them after the penalty. */
    method UnlockEarly(caller: Address, payment: Payment) returns (r: Result<UnstakePair>)
      requires Valid() && payment.Tokens() <= HeldBy(caller)
      modifies this`userEnergy, this`held, this`unlockedTokensForUser
      ensures Valid()
      ensures r.Success? <==> CanReduce(lockOptions, payment, currentEpoch, 0)
      ensures r.Failure? ==>
                userEnergy == old(userEnergy) && held == old(held)
                && unlockedTokensForUser == old(unlockedTokensForUser)
      ensures r.Success? ==>
                && r.value == UnstakePair(currentEpoch + unbondEpochs, payment,
                     payment.amount - PenaltyAmount(lockOptions, payment.amount, payment.unlockEpoch - currentEpoch, 0))
                && IsPenaltyAmount(payment.amount - r.value.unlockedAmount, lockOptions, payment.amount,
                                   payment.unlockEpoch - currentEpoch, 0)
                && held == old(held)[caller := old(HeldBy(caller)) - payment.Tokens()]
                && OnlyEntryOf(old(userEnergy), userEnergy, caller, currentEpoch)
                && unlockedTokensForUser == old(unlockedTokensForUser)[caller := old(Queue(caller)) + [r.value]]
    {
      hide Tracks, Worth, Pile, AllTokens, LedgerOk, QueueOk, FundsOk, PenaltyAmount, IsPenaltyAmount;
      ghost var tokens := HeldBy(caller);
      TakenPaymentInHorizon(userEnergy, held, currentEpoch, lockOptions, caller, payment);
      var reduced, energy := ReduceLockPeriodCommon(caller, payment, None);
      if reduced.Failure? {
        return Failure;
      }
      SetEnergyEntry(caller, energy, tokens - payment.Tokens());
      var pair := UnstakePair(currentEpoch + unbondEpochs, payment, reduced.value.unlockedTokens);
      var queue := Queue(caller);
      EmptyQueueOk(currentEpoch, unbondEpochs, lockOptions);
      QueuePushed(queue, currentEpoch, unbondEpochs, lockOptions, pair);
      QueueUpdated(unlockedTokensForUser, currentEpoch, unbondEpochs, lockOptions, caller, queue + [pair]);
      unlockedTokensForUser := unlockedTokensForUser[caller := queue + [pair]];
      return Success(pair);
    }

    /** What is left after the penalty is locked again, to the start of the month the shorter lock ends in. */
    method ReduceLockPeriod(caller: Address, payment: Payment, newLockPeriod: nat)
      returns (r: Result<Payment>, burned: nat, forwarded: nat)
      requires Valid() && payment.Tokens() <= HeldBy(caller)
      modifies this`userEnergy, this`held
      ensures Valid()
      ensures r.Success? <==>
                && IsListed(lockOptions, newLockPeriod)
                && CanReduce(lockOptions, payment, currentEpoch, NewLockEpochs(Some(newLockPeriod), currentEpoch))
      ensures r.Failure? ==> userEnergy == old(userEnergy) && held == old(held) && burned + forwarded == 0
      ensures r.Success? ==>
                && r.value.unlockEpoch == UnlockEpochToStartOfMonth(currentEpoch + newLockPeriod)
                && currentEpoch < r.value.unlockEpoch < payment.unlockEpoch
                && burned + forwarded == PenaltyAmount(lockOptions, payment.amount, payment.unlockEpoch - currentEpoch,
                                                       NewLockEpochs(Some(newLockPeriod), currentEpoch))
                && IsPenaltyAmount(burned + forwarded, lockOptions, payment.amount, payment.unlockEpoch - currentEpoch,
                                   r.value.unlockEpoch - currentEpoch)
                && r.value.amount + burned + forwarded == payment.amount
                && IsFloor(burned, (burned + forwarded) * feesBurnPercentage, MAX_PENALTY_PERCENTAGE)
                && held == old(held)[caller := old(HeldBy(caller)) - payment.Tokens() + r.value.Tokens()]
                && OnlyEntryOf(old(userEnergy), userEnergy, caller, currentEpoch)
    {
      hide Tracks, Worth, Pile, AllTokens, AllInHorizon, LedgerOk, QueuesOk, FundsOk, PenaltyAmount, IsFloor,
           NewLockEpochs, UnlockEpochToStartOfMonth, IsPenaltyAmount;
      burned, forwarded := 0, 0;
      var listed := RequireIsListedLockOption(newLockPeriod);
      if !listed {
        return Failure, 0, 0;
      }
      ghost var tokens := HeldBy(caller);
      var reduced, energy := ReduceLockPeriodCommon(caller, payment, Some(newLockPeriod));
      if reduced.Failure? {
        return Failure, 0, 0;
      }
      StartOfMonthInHorizon(newLockPeriod, currentEpoch, lockOptions);
      var newUnlockEpoch := currentEpoch + reduced.value.newLockEpochs;
      var penaltyAmount := payment.amount - reduced.value.unlockedTokens;
      var newLockedTokens := Payment(reduced.value.unlockedTokens, newUnlockEpoch);
      ReducedTo(newLockPeriod, currentEpoch);
      assert penaltyAmount == PenaltyAmount(lockOptions, payment.amount, payment.unlockEpoch - currentEpoch,
                                            NewLockEpochs(Some(newLockPeriod), currentEpoch));
      NothingBurned(feesBurnPercentage);
      if penaltyAmount > 0 {
        burned, forwarded := BurnPenalty(penaltyAmount);
      }
      TakenPaymentInHorizon(userEnergy, held, currentEpoch, lockOptions, caller, payment);
      StoreLocked(caller, energy, tokens - payment.Tokens(), newLockedTokens);
      return Success(newLockedTokens), burned, forwarded;
    }

    /** Part of a penalty is burned, the rest goes to the fees collector. */
    method BurnPenalty(amount: nat) returns (burned: nat, forwarded: nat)
      requires feesBurnPercentage <= MAX_PENALTY_PERCENTAGE
      ensures burned + forwarded == amount
      ensures IsFloor(burned, amount * feesBurnPercentage, MAX_PENALTY_PERCENTAGE)
    {
      MulLe(feesBurnPercentage, MAX_PENALTY_PERCENTAGE, amount);
      FloorOf(amount * feesBurnPercentage, MAX_PENALTY_PERCENTAGE);
      FloorNat(amount * feesBurnPercentage, MAX_PENALTY_PERCENTAGE);
      var burnAmount := amount * feesBurnPercentage / MAX_PENALTY_PERCENTAGE;
      LeOfMul(burnAmount, amount, MAX_PENALTY_PERCENTAGE);
      return burnAmount, amount - burnAmount;
    }

    /** Every locked token of the queue returns to the ledger it came from. */
    method CancelUnbond(caller: Address) returns (r: Result<seq<Payment>>)
      requires Valid()
      modifies this`userEnergy, this`held, this`unlockedTokensForUser
      ensures Valid()
      ensures r.Success? <==> old(Queue(caller)) != []
      ensures r.Failure? ==>
                userEnergy == old(userEnergy) && held == old(held)
                && unlockedTokensForUser == old(unlockedTokensForUser)
      ensures r.Success? ==>
                && r.value == LockedOf(old(Queue(caller)))
                && held == old(held)[caller := old(HeldBy(caller)) + AllTokens(r.value)]
                && OnlyEntryOf(old(userEnergy), userEnergy, caller, currentEpoch)
                && unlockedTokensForUser == old(unlockedTokensForUser)[caller := []]
    {
      hide Tracks, Worth, Pile, AllTokens, AllInHorizon, LedgerOk, FundsOk;
      var energy := GetUpdatedEnergyEntryForUser(caller);
      ghost var tokens := HeldBy(caller);
      var userEntries := Queue(caller);
      if userEntries == [] {
        return Failure;
      }
      var outputPayments := ReturnQueue(energy, tokens, userEntries, currentEpoch);
      HorizonKeptByAll(tokens, outputPayments, currentEpoch, lockOptions);
      EmptyQueueOk(currentEpoch, unbondEpochs, lockOptions);
      QueueUpdated(unlockedTokensForUser, currentEpoch, unbondEpochs, lockOptions, caller, []);
      unlockedTokensForUser := unlockedTokensForUser[caller := []];
      SetEnergyEntry(caller, energy, tokens + AllTokens(outputPayments));
      return Success(outputPayments);
    }

    /** Pops matured entries off the front of the queue and pays out their base tokens. Of each one's locked tokens, as
        many are burned, and the rest is its penalty. */
    method ClaimUnlockedTokens(caller: Address) returns (r: Result<seq<nat>>, splits: seq<Split>)
      requires Valid()
      modifies this`unlockedTokensForUser
      ensures Valid()
      ensures r.Success? <==> Matured(old(Queue(caller)), currentEpoch) > 0
      ensures r.Failure? ==> unlockedTokensForUser == old(unlockedTokensForUser)
      ensures r.Success? ==>
                var n := Matured(old(Queue(caller)), currentEpoch);
                var claimed := old(Queue(caller))[..n];
                && r.value == UnlockedOf(claimed)
                && unlockedTokensForUser == old(unlockedTokensForUser)[caller := old(Queue(caller))[n..]]
                && AreSplits(splits, claimed, feesBurnPercentage)
                && BurnedSum(splits) == UnlockedSum(claimed)
                && BurnedSum(splits) + PenaltySum(splits) == LockedSum(claimed)
    {
      hide LedgerOk, FundsOk, QueuesOk, QueueOk, LockedSum, UnlockedSum, BurnedSum, PenaltySum, Matured, ArePending,
           AreSplits;
      ghost var entries := Queue(caller);
      QueueOfUser(unlockedTokensForUser, currentEpoch, unbondEpochs, lockOptions, caller);
      var userEntries, outputPayments, penaltyTokens;
      userEntries, outputPayments, splits, penaltyTokens := PopMatured(Queue(caller));
      if outputPayments == [] {
        return Failure, [];
      }
      ghost var n := Matured(entries, currentEpoch);
      QueuePopped(entries, currentEpoch, unbondEpochs, lockOptions, n);
      QueueUpdated(unlockedTokensForUser, currentEpoch, unbondEpochs, lockOptions, caller, userEntries);
      unlockedTokensForUser := unlockedTokensForUser[caller := userEntries];
      splits := BurnPenalties(splits, penaltyTokens, entries[..n]);
      SplitsAddUp(splits, entries[..n], feesBurnPercentage);
      return Success(outputPayments), splits;
    }

    /** The loop that takes entries off the front until one has not matured. */
    method PopMatured(entries: seq<UnstakePair>)
      returns (userEntries: seq<UnstakePair>, outputPayments: seq<nat>, splits: seq<Split>,
               penaltyTokens: seq<PenaltyTokens>)
      requires lockOptions != [] && QueueOk(entries, currentEpoch, unbondEpochs, lockOptions)
      ensures var n := Matured(entries, currentEpoch);
              && userEntries == entries[n..] && outputPayments == UnlockedOf(entries[..n])
              && ArePending(splits, entries[..n], penaltyTokens, 0, feesBurnPercentage)
    {
      hide QueueOk, Matured, ArePending;
      userEntries, outputPayments, splits, penaltyTokens := entries, [], [], [];
      var i := 0;
      NothingPending([], entries, [], feesBurnPercentage);
      while userEntries != []
        invariant i <= |entries| && userEntries == entries[i..]
        invariant i <= Matured(entries, currentEpoch)
        invariant outputPayments == UnlockedOf(entries[..i])
        invariant ArePending(splits, entries[..i], penaltyTokens, 0, feesBurnPercentage)
        decreases |userEntries|
      {
        var entry := userEntries[0];
        MaturedAt(entries, currentEpoch, i);
        if currentEpoch < entry.unlockEpoch {
          break;
        }
        QueueEntryOk(entries, currentEpoch, unbondEpochs, lockOptions, i);
        PendingGrows(splits, entries, i, penaltyTokens, feesBurnPercentage);
        splits := splits + [Split(entry.unlockedAmount, 0, 0)];
        var penaltyAmount := entry.locked.amount - entry.unlockedAmount;
        if penaltyAmount > 0 {
          penaltyTokens := penaltyTokens + [PenaltyTokens(i, penaltyAmount)];
        }
        outputPayments := outputPayments + [entry.unlockedAmount];
        userEntries := userEntries[1..];
        i := i + 1;
      }
      MaturedAt(entries, currentEpoch, i);
    }

    /** The loop over the penalties of the claimed entries. */
    method BurnPenalties(splits: seq<Split>, penaltyTokens: seq<PenaltyTokens>, ghost entries: seq<UnstakePair>)
      returns (r: seq<Split>)
      requires feesBurnPercentage <= MAX_PENALTY_PERCENTAGE
      requires ArePending(splits, entries, penaltyTokens, 0, feesBurnPercentage)
      ensures AreSplits(r, entries, feesBurnPercentage)
    {
      hide ArePending, IsFloor, AreSplits;
      r := splits;
      for j := 0 to |penaltyTokens|
        invariant ArePending(r, entries, penaltyTokens, j, feesBurnPercentage)
      {
        var burned, forwarded := BurnPenalty(penaltyTokens[j].amount);
        PendingEntry(r, entries, penaltyTokens, j, feesBurnPercentage);
        PendingSettled(r, entries, penaltyTokens, j, feesBurnPercentage, burned, forwarded);
        var e := penaltyTokens[j].entry;
        r := r[e := r[e].(penaltyBurned := burned, penaltyForwarded := forwarded)];
      }
      NothingPending(r, entries, penaltyTokens, feesBurnPercentage);
    }

    // ---- Transfers between users ----

    method LockFunds(sender: Address, receiver: Address, payments: seq<Payment>) returns (ok: bool)
      requires Valid() && AllTokens(payments) <= HeldBy(sender)
      modifies this`userEnergy, this`held, this`lockedFunds, this`senderLastTransferEpoch
      ensures Valid()
      ensures ok <==>
                && (receiver, sender) !in old(lockedFunds)
                && (sender in old(senderLastTransferEpoch) ==>
                      currentEpoch > old(senderLastTransferEpoch)[sender] + epochsCooldownDuration)
                && forall p :: p in payments ==> currentEpoch < p.unlockEpoch
      ensures !ok ==>
                && userEnergy == old(userEnergy) && held == old(held) && lockedFunds == old(lockedFunds)
                && senderLastTransferEpoch == old(senderLastTransferEpoch)
      ensures ok ==>
                && held == old(held)[sender := old(HeldBy(sender)) - AllTokens(payments)]
                && OnlyEntryOf(old(userEnergy), userEnergy, sender, currentEpoch)
                && lockedFunds == old(lockedFunds)[(receiver, sender) := LockedFunds(payments, currentEpoch)]
                && senderLastTransferEpoch == old(senderLastTransferEpoch)[sender := currentEpoch]
    {
      hide Tracks, Worth, Pile, AllTokens, AllInHorizon, LedgerOk, QueuesOk, PaymentsOk;
      if (receiver, sender) in lockedFunds || !OffCooldown(senderLastTransferEpoch, sender, currentEpoch,
                                                           epochsCooldownDuration) {
        return false;
      }
      var energy := GetUpdatedEnergyEntryForUser(sender);
      ghost var tokens := HeldBy(sender);
      ok := DeductEnergyFromSender(energy, tokens, payments, currentEpoch);
      if !ok {
        return;
      }
      TakenPaymentsOk(tokens, payments, currentEpoch, lockOptions);
      HorizonKeptBySome(tokens, AllTokens(payments), currentEpoch, lockOptions);
      lockedFunds := lockedFunds[(receiver, sender) := LockedFunds(payments, currentEpoch)];
      senderLastTransferEpoch := senderLastTransferEpoch[sender := currentEpoch];
      SetEnergyEntry(sender, energy, tokens - AllTokens(payments));
    }

    /** The tokens in transit between two users, for good or back to where they came from. */
    method ReleaseFunds(receiver: Address, sender: Address, to: Address) returns (funds: seq<Payment>)
      requires Valid() && (receiver, sender) in lockedFunds
      modifies this`userEnergy, this`held, this`lockedFunds
      ensures Valid()
      ensures funds == old(lockedFunds)[(receiver, sender)].funds
      ensures held == old(held)[to := old(HeldBy(to)) + AllTokens(funds)]
      ensures OnlyEntryOf(old(userEnergy), userEnergy, to, currentEpoch)
      ensures lockedFunds == old(lockedFunds) - {(receiver, sender)}
    {
      hide Tracks, Worth, Pile, AllTokens, AllInHorizon, LedgerOk, QueuesOk, PaymentsOk;
      funds := lockedFunds[(receiver, sender)].funds;
      var energy := GetUpdatedEnergyEntryForUser(to);
      ghost var tokens := HeldBy(to);
      AddEnergyToDestination(energy, tokens, funds, currentEpoch);
      HorizonKeptByAll(tokens, funds, currentEpoch, lockOptions);
      lockedFunds := lockedFunds - {(receiver, sender)};
      SetEnergyEntry(to, energy, tokens + AllTokens(funds));
    }

    /** The receiver gets the tokens once they were in transit long enough. */
    method Withdraw(receiver: Address, sender: Address) returns (r: Result<seq<Payment>>)
      requires Valid()
      modifies this`userEnergy, this`held, this`lockedFunds, this`receiverLastTransferEpoch
      ensures Valid()
      ensures r.Success? <==>
                && (receiver, sender) in old(lockedFunds)
                && (receiver in old(receiverLastTransferEpoch) ==>
                      currentEpoch > old(receiverLastTransferEpoch)[receiver] + epochsCooldownDuration)
                && currentEpoch - old(lockedFunds)[(receiver, sender)].lockedEpoch > minLockEpochs
      ensures r.Failure? ==>
                && userEnergy == old(userEnergy) && held == old(held) && lockedFunds == old(lockedFunds)
                && receiverLastTransferEpoch == old(receiverLastTransferEpoch)
      ensures r.Success? ==>
                && r.value == old(lockedFunds)[(receiver, sender)].funds
                && held == old(held)[receiver := old(HeldBy(receiver)) + AllTokens(r.value)]
                && OnlyEntryOf(old(userEnergy), userEnergy, receiver, currentEpoch)
                && lockedFunds == old(lockedFunds) - {(receiver, sender)}
                && receiverLastTransferEpoch == old(receiverLastTransferEpoch)[receiver := currentEpoch]
    {
      hide LedgerOk, QueuesOk, FundsOk, AllTokens;
      if !OffCooldown(receiverLastTransferEpoch, receiver, currentEpoch, epochsCooldownDuration)
         || (receiver, sender) !in lockedFunds
         || currentEpoch - lockedFunds[(receiver, sender)].lockedEpoch <= minLockEpochs {
        return Failure;
      }
      var funds := ReleaseFunds(receiver, sender, receiver);
      receiverLastTransferEpoch := receiverLastTransferEpoch[receiver := currentEpoch];
      return Success(funds);
    }

    /** The sender gets the tokens back, and may transfer again at once. */
    method CancelTransfer(sender: Address, receiver: Address) returns (r: Result<seq<Payment>>)
      requires Valid()
      modifies this`userEnergy, this`held, this`lockedFunds, this`senderLastTransferEpoch
      ensures Valid()
      ensures r.Success? <==> (receiver, sender) in old(lockedFunds)
      ensures r.Failure? ==>
                && userEnergy == old(userEnergy) && held == old(held) && lockedFunds == old(lockedFunds)
                && senderLastTransferEpoch == old(senderLastTransferEpoch)
      ensures r.Success? ==>
                && r.value == old(lockedFunds)[(receiver, sender)].funds
                && held == old(held)[sender := old(HeldBy(sender)) + AllTokens(r.value)]
                && OnlyEntryOf(old(userEnergy), userEnergy, sender, currentEpoch)
                && lockedFunds == old(lockedFunds) - {(receiver, sender)}
                && senderLastTransferEpoch == old(senderLastTransferEpoch) - {sender}
    {
      hide LedgerOk, QueuesOk, FundsOk, AllTokens;
      if (receiver, sender) !in lockedFunds {
        return Failure;
      }
      senderLastTransferEpoch := senderLastTransferEpoch - {sender};
      var funds := ReleaseFunds(receiver, sender, sender);
      return Success(funds);
    }

    /** What a user's energy shows is what their tokens are worth now, or nothing. */
    method GetEnergyAmountForUser(user: Address) returns (r: nat)
      requires Valid()
      ensures r == Shown(Worth(HeldBy(user), currentEpoch))
    {
      hide LedgerOk, QueuesOk, FundsOk, Worth;
      var energy := GetUpdatedEnergyEntryForUser(user);
      r := energy.GetEnergyAmount();
    }
  }

  // ---- Round trips over time ----

  /** Unlocking early and cancelling at any later epoch, before or after the tokens mature, brings every token back, and
      leaves the energy that doing nothing would have left, plus what the tokens queued before are worth. */
  method UnlockEarlyThenCancel(contracts: LockedAssetContracts, caller: Address, payment: Payment, later: nat)
    requires contracts.Valid() && payment.Tokens() <= contracts.HeldBy(caller) && contracts.currentEpoch <= later
    requires CanReduce(contracts.lockOptions, payment, contracts.currentEpoch, 0)
    modifies contracts
    ensures contracts.Valid() && contracts.currentEpoch == later && contracts.Queue(caller) == []
    ensures contracts.HeldBy(caller)
         == old(contracts.HeldBy(caller)) + AllTokens(LockedOf(old(contracts.Queue(caller))))
    ensures caller in contracts.userEnergy && caller in old(contracts.userEnergy)
    ensures var before := old(contracts.userEnergy)[caller];
            var queued := AllTokens(LockedOf(old(contracts.Queue(caller))));
            && before.lastUpdateEpoch <= later
            && contracts.userEnergy[caller] == EnergyEntry(Depleted(before, later).amount + Worth(queued, later), later,
                                                           before.totalLockedTokens + |queued|)
  {
    hide Tracks, Worth, Pile, AllTokens, LedgerOk, QueuesOk, FundsOk, PenaltyAmount, IsTable, Depleted;
    ghost var tokens, queue := contracts.HeldBy(caller), contracts.Queue(caller);
    ghost var before := contracts.userEnergy;
    TokensHaveEntry(before, contracts.held, contracts.currentEpoch, contracts.lockOptions, caller, payment);
    EntryOfUser(before, contracts.held, contracts.currentEpoch, contracts.lockOptions, caller);
    var pair := contracts.UnlockEarly(caller, payment);
    assert contracts.Queue(caller) == queue + [pair.value];
    contracts.AdvanceEpoch(later);
    var back := contracts.CancelUnbond(caller);
    TokensOfPushed(queue, pair.value, tokens);
    EntryOfUser(contracts.userEnergy, contracts.held, later, contracts.lockOptions, caller);
    MoreTokensMoreEnergy(before[caller], contracts.userEnergy[caller], tokens, AllTokens(LockedOf(queue)));
  }

  /** Reducing the lock and then unlocking early in the same epoch leaves no less than unlocking at once would have, and
      at most a ten-thousandth of the amount plus two units more. */
  method ReduceLockThenUnlockEarly(contracts: LockedAssetContracts, caller: Address, payment: Payment,
                                   newLockPeriod: nat)
    returns (r: Result<UnstakePair>)
    requires contracts.Valid() && payment.Tokens() <= contracts.HeldBy(caller)
    requires IsListed(contracts.lockOptions, newLockPeriod)
    requires CanReduce(contracts.lockOptions, payment, contracts.currentEpoch,
                       NewLockEpochs(Some(newLockPeriod), contracts.currentEpoch))
    modifies contracts
    ensures contracts.Valid()
    ensures var direct := LeftAfterUnlock(old(contracts.lockOptions), payment, old(contracts.currentEpoch));
            && (direct > 0 ==> r.Success?)
            && (r.Success? ==> direct <= r.value.unlockedAmount <= direct + payment.amount / MAX_PENALTY_PERCENTAGE + 2)
  {
    hide Tracks, Worth, Pile, AllTokens, LedgerOk, QueuesOk, FundsOk, PenaltyAmount, IsTable, IsFloor, NewLockEpochs,
         UnlockEpochToStartOfMonth, CanReduce, LeftAfterUnlock, IsListed, LongestLock, InThePast;
    ghost var t, epoch := contracts.lockOptions, contracts.currentEpoch;
    ghost var next := NewLockEpochs(Some(newLockPeriod), epoch);
    ShorterLock(t, newLockPeriod, epoch);
    ghost var tokens := contracts.HeldBy(caller);
    var reduced, burned, forwarded := contracts.ReduceLockPeriod(caller, payment, newLockPeriod);
    ReducedUnlocks(t, payment, reduced.value, epoch, next);
    TokensAdded(tokens - payment.Tokens(), reduced.value);
    r := contracts.UnlockEarly(caller, reduced.value);
    if r.Success? {
      UnlockLeaves(t, reduced.value, epoch);
    }
  }

  /** The same for a transfer that is cancelled. */
  method LockFundsThenCancel(contracts: LockedAssetContracts, sender: Address, receiver: Address,
                             payments: seq<Payment>, later: nat)
    requires contracts.Valid() && AllTokens(payments) <= contracts.HeldBy(sender) && contracts.currentEpoch <= later
    requires sender in contracts.userEnergy && (receiver, sender) !in contracts.lockedFunds
    requires OffCooldown(contracts.senderLastTransferEpoch, sender, contracts.currentEpoch,
                         contracts.epochsCooldownDuration)
    requires forall p :: p in payments ==> contracts.currentEpoch < p.unlockEpoch
    modifies contracts
    ensures contracts.Valid() && contracts.HeldBy(sender) == old(contracts.HeldBy(sender))
    ensures contracts.lockedFunds == old(contracts.lockedFunds)
    ensures sender in contracts.userEnergy
    ensures var before, after := old(contracts.userEnergy)[sender], contracts.userEnergy[sender];
            before.lastUpdateEpoch <= after.lastUpdateEpoch && after == Depleted(before, after.lastUpdateEpoch)
  {
    hide Tracks, Worth, Pile, AllTokens, LedgerOk, QueuesOk, FundsOk, IsTable, Depleted;
    ghost var tokens := contracts.HeldBy(sender);
    ghost var before := contracts.userEnergy;
    EntryOfUser(before, contracts.held, contracts.currentEpoch, contracts.lockOptions, sender);
    var ok := contracts.LockFunds(sender, receiver, payments);
    contracts.AdvanceEpoch(later);
    var back := contracts.CancelTransfer(sender, receiver);
    assert tokens - AllTokens(payments) + AllTokens(payments) == tokens;
    EntryOfUser(contracts.userEnergy, contracts.held, later, contracts.lockOptions, sender);
    SameTokensSameEnergy(before[sender], contracts.userEnergy[sender], tokens);
  }
}
