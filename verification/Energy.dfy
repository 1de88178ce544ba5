/** locked-asset/energy-factory/src/energy.rs: two numbers and an epoch stand for all locked tokens of a user. */
module EnergyLedger {
  import opened Chain
  import opened Arith
  import opened Units

  datatype EnergyEntry = EnergyEntry(amount: int, lastUpdateEpoch: Epoch, totalLockedTokens: nat)

  /** The entry is right for a holding: it counts its tokens, and sums up their remaining epochs, tokens past their
      unlock epoch counting negatively until they are unlocked. */
  ghost predicate Tracks(e: EnergyEntry, held: multiset<Epoch>) {
    e.totalLockedTokens == |held| && e.amount == Worth(held, e.lastUpdateEpoch)
  }

  /** The signed energy, cut off at zero. */
  function Shown(amount: int): (r: nat)
    ensures r >= amount && (r == amount || r == 0)
  {
    if amount > 0 then amount else 0
  }

  /** Nothing but the holding and the epoch decides a right entry. */
  lemma EntryDetermined(e: EnergyEntry, e': EnergyEntry, held: multiset<Epoch>)
    requires Tracks(e, held) && Tracks(e', held) && e.lastUpdateEpoch == e'.lastUpdateEpoch
    ensures e == e'
  {
  }

  /** However often and whenever an entry is depleted, it stays right. */
  lemma DepletedTracks(e: EnergyEntry, e': EnergyEntry, held: multiset<Epoch>)
    requires Tracks(e, held) && e.lastUpdateEpoch <= e'.lastUpdateEpoch
    requires e'.totalLockedTokens == e.totalLockedTokens
    requires e'.amount == e.amount - e.totalLockedTokens * (e'.lastUpdateEpoch - e.lastUpdateEpoch)
    ensures Tracks(e', held)
  {
    WorthShift(held, e.lastUpdateEpoch, e'.lastUpdateEpoch);
  }

  lemma AddedTracks(e: EnergyEntry, e': EnergyEntry, held: multiset<Epoch>, amount: nat, unlockEpoch: Epoch)
    requires Tracks(e, held) && e'.lastUpdateEpoch == e.lastUpdateEpoch
    requires e'.totalLockedTokens == e.totalLockedTokens + amount
    requires e'.amount == e.amount + amount * (unlockEpoch - e.lastUpdateEpoch)
    ensures Tracks(e', held + Pile(amount, unlockEpoch))
  {
    var pile := Pile(amount, unlockEpoch);
    WorthPile(amount, unlockEpoch, e.lastUpdateEpoch);
    WorthPlus(held, pile, e.lastUpdateEpoch);
  }

  lemma RemovedTracks(e: EnergyEntry, e': EnergyEntry, held: multiset<Epoch>, amount: nat, unlockEpoch: Epoch)
    requires Tracks(e, held) && e'.lastUpdateEpoch == e.lastUpdateEpoch
    requires Pile(amount, unlockEpoch) <= held
    requires e'.totalLockedTokens == e.totalLockedTokens - amount
    requires e'.amount == e.amount - amount * (unlockEpoch - e.lastUpdateEpoch)
    ensures Tracks(e', held - Pile(amount, unlockEpoch))
  {
    var pile := Pile(amount, unlockEpoch);
    WorthPile(amount, unlockEpoch, e.lastUpdateEpoch);
    WorthMinus(held, pile, e.lastUpdateEpoch);
  }

  /** The same, with the remaining epochs counted from the other side. */
  lemma RefundedTracks(e: EnergyEntry, e': EnergyEntry, held: multiset<Epoch>, amount: nat, unlockEpoch: Epoch)
    requires Tracks(e, held) && e'.lastUpdateEpoch == e.lastUpdateEpoch
    requires Pile(amount, unlockEpoch) <= held
    requires e'.totalLockedTokens == e.totalLockedTokens - amount
    requires e'.amount == e.amount + amount * (e.lastUpdateEpoch - unlockEpoch)
    ensures Tracks(e', held - Pile(amount, unlockEpoch))
  {
    assert amount * (e.lastUpdateEpoch - unlockEpoch) == -(amount * (unlockEpoch - e.lastUpdateEpoch));
    RemovedTracks(e, e', held, amount, unlockEpoch);
  }

  class Energy {
    var amount: int
    var lastUpdateEpoch: Epoch
    var totalLockedTokens: nat

    function Entry(): EnergyEntry
      reads this
    {
      EnergyEntry(amount, lastUpdateEpoch, totalLockedTokens)
    }

    constructor (entry: EnergyEntry)
      ensures Entry() == entry
    {
      amount, lastUpdateEpoch, totalLockedTokens := entry.amount, entry.lastUpdateEpoch, entry.totalLockedTokens;
    }

    method Add(futureEpoch: Epoch, currentEpoch: Epoch, amountPerEpoch: nat)
      modifies this`amount
      ensures amount
           == old(amount) + if currentEpoch < futureEpoch then amountPerEpoch * (futureEpoch - currentEpoch) else 0
    {
      if currentEpoch >= futureEpoch {
        return;
      }
      var epochsDiff := futureEpoch - currentEpoch;
      amount := amount + amountPerEpoch * epochsDiff;
    }

    method Subtract(pastEpoch: Epoch, currentEpoch: Epoch, amountPerEpoch: nat)
      modifies this`amount
      ensures amount
           == old(amount) - if pastEpoch < currentEpoch then amountPerEpoch * (currentEpoch - pastEpoch) else 0
    {
      if pastEpoch >= currentEpoch {
        return;
      }
      var epochDiff := currentEpoch - pastEpoch;
      amount := amount - amountPerEpoch * epochDiff;
    }

    method Deplete(currentEpoch: Epoch)
      modifies this`amount, this`lastUpdateEpoch
      ensures lastUpdateEpoch == currentEpoch
      ensures old(lastUpdateEpoch) <= currentEpoch ==>
                amount == old(amount) - totalLockedTokens * (currentEpoch - old(lastUpdateEpoch))
      ensures currentEpoch < old(lastUpdateEpoch) ==> amount == old(amount)
    {
      if lastUpdateEpoch == currentEpoch {
        return;
      }
      if totalLockedTokens > 0 {
        Subtract(lastUpdateEpoch, currentEpoch, totalLockedTokens);
      }
      lastUpdateEpoch := currentEpoch;
    }

    method AddEnergyRaw(lockedTokenAmount: nat, energyAmount: int)
      modifies this`amount, this`totalLockedTokens
      ensures totalLockedTokens == old(totalLockedTokens) + lockedTokenAmount && amount == old(amount) + energyAmount
    {
      totalLockedTokens := totalLockedTokens + lockedTokenAmount;
      amount := amount + energyAmount;
    }

    /** An unsigned subtraction below zero reverts, here and below; the callers' ledger rules it out. */
    method RemoveEnergyRaw(lockedTokenAmount: nat, energyAmount: nat)
      requires lockedTokenAmount <= totalLockedTokens
      modifies this`amount, this`totalLockedTokens
      ensures totalLockedTokens == old(totalLockedTokens) - lockedTokenAmount && amount == old(amount) - energyAmount
    {
      totalLockedTokens := totalLockedTokens - lockedTokenAmount;
      amount := amount - energyAmount;
    }

    /** Locking adds the remaining epochs of every token. */
    method AddAfterTokenLock(lockAmount: nat, unlockEpoch: Epoch, currentEpoch: Epoch)
      modifies this`amount, this`totalLockedTokens
      ensures totalLockedTokens == old(totalLockedTokens) + lockAmount
      ensures currentEpoch <= unlockEpoch ==> amount == old(amount) + lockAmount * (unlockEpoch - currentEpoch)
      ensures unlockEpoch < currentEpoch ==> amount == old(amount)
    {
      Add(unlockEpoch, currentEpoch, lockAmount);
      totalLockedTokens := totalLockedTokens + lockAmount;
    }

    /** Unlocking gives back the energy that went negative since the unlock epoch. */
    method RefundAfterTokenUnlock(unlockAmount: nat, unlockEpoch: Epoch, currentEpoch: Epoch)
      requires unlockAmount <= totalLockedTokens
      modifies this`amount, this`totalLockedTokens
      ensures totalLockedTokens == old(totalLockedTokens) - unlockAmount
      ensures unlockEpoch <= currentEpoch ==> amount == old(amount) + unlockAmount * (currentEpoch - unlockEpoch)
      ensures currentEpoch < unlockEpoch ==> amount == old(amount)
    {
      Add(currentEpoch, unlockEpoch, unlockAmount);
      totalLockedTokens := totalLockedTokens - unlockAmount;
    }

    method DepleteAfterEarlyUnlock(unlockAmount: nat, unlockEpoch: Epoch, currentEpoch: Epoch)
      requires unlockAmount <= totalLockedTokens
      modifies this`amount, this`totalLockedTokens
      ensures totalLockedTokens == old(totalLockedTokens) - unlockAmount
      ensures currentEpoch <= unlockEpoch ==> amount == old(amount) - unlockAmount * (unlockEpoch - currentEpoch)
      ensures unlockEpoch < currentEpoch ==> amount == old(amount)
    {
      Subtract(currentEpoch, unlockEpoch, unlockAmount);
      totalLockedTokens := totalLockedTokens - unlockAmount;
    }

    /** On either side of the unlock epoch, the tokens' signed remaining epochs are taken out. */
    method UpdateAfterUnlockAny(unlockAmount: nat, unlockEpoch: Epoch, currentEpoch: Epoch)
      requires unlockAmount <= totalLockedTokens
      modifies this`amount, this`totalLockedTokens
      ensures totalLockedTokens == old(totalLockedTokens) - unlockAmount
      ensures amount == old(amount) - unlockAmount * (unlockEpoch - currentEpoch)
    {
      if unlockEpoch < currentEpoch {
        RefundAfterTokenUnlock(unlockAmount, unlockEpoch, currentEpoch);
        assert unlockAmount * (currentEpoch - unlockEpoch) == -(unlockAmount * (unlockEpoch - currentEpoch));
      } else {
        DepleteAfterEarlyUnlock(unlockAmount, unlockEpoch, currentEpoch);
      }
    }

    /** Moving tokens to an epoch that has not passed adds the difference, wherever the old one lies; moving them to one
        that has passed only takes them out. */
    method UpdateAfterUnlockEpochChange(tokenAmount: nat, oldUnlockEpoch: Epoch, newUnlockEpoch: Epoch,
                                        currentEpoch: Epoch)
      requires tokenAmount <= totalLockedTokens
      modifies this`amount, this`totalLockedTokens
      ensures totalLockedTokens == old(totalLockedTokens)
      ensures currentEpoch <= newUnlockEpoch ==> amount == old(amount) + tokenAmount * (newUnlockEpoch - oldUnlockEpoch)
      ensures newUnlockEpoch < currentEpoch ==> amount == old(amount) - tokenAmount * (oldUnlockEpoch - currentEpoch)
    {
      UpdateAfterUnlockAny(tokenAmount, oldUnlockEpoch, currentEpoch);
      AddAfterTokenLock(tokenAmount, newUnlockEpoch, currentEpoch);
      assert tokenAmount * (newUnlockEpoch - currentEpoch) - tokenAmount * (oldUnlockEpoch - currentEpoch)
          == tokenAmount * (newUnlockEpoch - oldUnlockEpoch);
    }

    /** What the entry shows to others: energy that went negative counts as none. */
    method GetEnergyAmount() returns (r: nat)
      ensures r == Shown(amount)
    {
      r := if amount > 0 then amount else 0;
    }
  }
}
