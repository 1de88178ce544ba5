/** Locked tokens as payments, queues and the ledger of all users: the values behind the locked-asset contracts. */
module LockedTokens {
  import opened Chain
  import opened Wrappers
  import opened Arith
  import opened Math
  import opened Units
  import opened EnergyLedger
  import opened LockOptions

  /** Locked tokens of one nonce; the nonce's attributes hold the unlock epoch. */
  datatype Payment = Payment(amount: nat, unlockEpoch: Epoch) {
    ghost function Tokens(): multiset<nat> {
      Pile(amount, unlockEpoch)
    }
  }

  /** An early unlock waiting out its unbond period: `locked` tokens against `unlockedAmount` base tokens. */
  datatype UnstakePair = UnstakePair(unlockEpoch: nat, locked: Payment, unlockedAmount: nat)

  // ---- Lists of payments ----

  ghost function AllTokens(ps: seq<Payment>): multiset<nat> {
    if ps == [] then multiset{} else AllTokens(ps[..|ps| - 1]) + ps[|ps| - 1].Tokens()
  }

  lemma AllTokensStep(ps: seq<Payment>, i: nat)
    requires i < |ps|
    ensures AllTokens(ps[..i + 1]) == AllTokens(ps[..i]) + ps[i].Tokens()
    ensures AllTokens(ps[..i + 1]) <= AllTokens(ps)
    decreases |ps| - i
  {
    assert ps[..i + 1][..i] == ps[..i];
    if i + 1 == |ps| {
      assert ps[..i + 1] == ps;
    } else {
      AllTokensStep(ps, i + 1);
    }
  }

  lemma PileWithin(amount: nat, u: nat, m: multiset<nat>)
    requires Pile(amount, u) <= m
    ensures amount <= |m|
    ensures amount > 0 ==> u in m
  {
    WorthPile(amount, u, 0);
    WorthMinus(m, Pile(amount, u), 0);
    assert Pile(amount, u)[u] == amount;
  }

  ghost function LockedOf(queue: seq<UnstakePair>): seq<Payment> {
    seq(|queue|, i requires 0 <= i < |queue| => queue[i].locked)
  }

  // ---- Merging ----

  function MergeWith(p: Payment, q: Payment): Payment
    requires p.amount + q.amount > 0
  {
    Payment(p.amount + q.amount, WeightedAverageRoundUp(p.unlockEpoch, p.amount, q.unlockEpoch, q.amount))
  }

  ghost predicate Positive(ps: seq<Payment>) {
    forall p :: p in ps ==> p.amount > 0
  }

  ghost function Merged(ps: seq<Payment>, n: nat): (r: Payment)
    requires 0 < n <= |ps| && Positive(ps)
    ensures r.amount > 0
  {
    if n == 1 then ps[0] else MergeWith(Merged(ps, n - 1), ps[n - 1])
  }

  lemma TokensAddUp(ps: seq<Payment>, n: nat)
    requires n < |ps|
    ensures |AllTokens(ps[..0])| == 0 && Worth(AllTokens(ps[..0]), 0) == 0
    ensures |AllTokens(ps[..n + 1])| == |AllTokens(ps[..n])| + ps[n].amount
    ensures Worth(AllTokens(ps[..n + 1]), 0) == Worth(AllTokens(ps[..n]), 0) + Worth(ps[n].Tokens(), 0)
  {
    AllTokensStep(ps, n);
    WorthPlus(AllTokens(ps[..n]), ps[n].Tokens(), 0);
    WorthPile(ps[n].amount, ps[n].unlockEpoch, 0);
  }

  lemma MergedStep(ps: seq<Payment>, i: nat)
    requires i < |ps| && Positive(ps)
    ensures Merged(ps, i + 1) == if i == 0 then ps[0] else MergeWith(Merged(ps, i), ps[i])
  {
  }

  lemma PaymentWeight(p: Payment)
    ensures Worth(p.Tokens(), 0) == p.unlockEpoch * p.amount
  {
    WorthPile(p.amount, p.unlockEpoch, 0);
  }

  lemma MergeWithWeight(p: Payment, q: Payment)
    requires p.amount + q.amount > 0
    ensures var r := MergeWith(p, q);
            var weight := Worth(p.Tokens(), 0) + Worth(q.Tokens(), 0);
            weight <= Worth(r.Tokens(), 0) < weight + r.amount
  {
    hide WeightedAverageRoundUp, Worth, Pile;
    AverageIsCeiling(p.unlockEpoch, p.amount, q.unlockEpoch, q.amount);
    PaymentWeight(p);
    PaymentWeight(q);
    PaymentWeight(MergeWith(p, q));
  }

  lemma {:induction false} MergedAmount(ps: seq<Payment>, n: nat)
    requires 0 < n <= |ps| && Positive(ps)
    ensures Merged(ps, n).amount == |AllTokens(ps[..n])| <= |AllTokens(ps)|
  {
    hide WeightedAverageRoundUp, Worth, Pile;
    TokensAddUp(ps, n - 1);
    AllTokensStep(ps, n - 1);
    WorthMinus(AllTokens(ps), AllTokens(ps[..n]), 0);
    if n > 1 {
      MergedAmount(ps, n - 1);
    }
  }

  /** Merging lands between the earliest and the latest unlock epoch. */
  lemma {:induction false} MergedBetween(ps: seq<Payment>, n: nat, lo: nat, hi: nat)
    requires 0 < n <= |ps| && Positive(ps)
    requires forall p :: p in ps ==> lo <= p.unlockEpoch <= hi
    ensures lo <= Merged(ps, n).unlockEpoch <= hi
  {
    hide WeightedAverageRoundUp;
    if n > 1 {
      MergedBetween(ps, n - 1, lo, hi);
      var q, p := Merged(ps, n - 1), ps[n - 1];
      AverageBetween(q.unlockEpoch, q.amount, p.unlockEpoch, p.amount, lo, hi);
    }
  }

  /** Merging never gives up energy: the merged tokens weigh at least what their parts did, and by less than one epoch
      per token and merge more. */
  lemma {:induction false} MergedWeight(ps: seq<Payment>, n: nat, total: nat)
    requires 0 < n <= |ps| && Positive(ps) && |AllTokens(ps)| <= total
    ensures var weight, merged := Worth(AllTokens(ps[..n]), 0), Worth(Merged(ps, n).Tokens(), 0);
            weight <= merged <= weight + (n - 1) * total
  {
    hide WeightedAverageRoundUp, Worth, Pile, AllTokens;
    TokensAddUp(ps, n - 1);
    if n > 1 {
      MergedWeight(ps, n - 1, total);
      MergedAmount(ps, n);
      MergeWithWeight(Merged(ps, n - 1), ps[n - 1]);
      assert (n - 1) * total == (n - 1 - 1) * total + total;
    }
  }

  // ---- The ledger of all users ----

  type Holdings = map<Address, multiset<nat>>

  ghost function Held(held: Holdings, user: Address): multiset<nat> {
    if user in held then held[user] else multiset{}
  }

  ghost predicate AllInHorizon(m: multiset<nat>, epoch: nat, t: seq<LockOption>)
    requires t != []
  {
    forall e :: e in m ==> InHorizon(e, epoch, t)
  }

  lemma HorizonKeptBySome(m: multiset<nat>, out: multiset<nat>, epoch: nat, t: seq<LockOption>)
    requires t != [] && AllInHorizon(m, epoch, t)
    ensures AllInHorizon(m - out, epoch, t)
  {
    forall e | e in m - out
      ensures e in m
    {
    }
  }

  lemma HorizonKept(m: multiset<nat>, out: multiset<nat>, p: Payment, epoch: nat, t: seq<LockOption>)
    requires t != [] && AllInHorizon(m, epoch, t) && InHorizon(p.unlockEpoch, epoch, t)
    ensures AllInHorizon(m - out, epoch, t)
    ensures AllInHorizon(m + p.Tokens(), epoch, t)
    ensures AllInHorizon(m - out + p.Tokens(), epoch, t)
  {
    HorizonKeptBySome(m, out, epoch, t);
    forall e | e in p.Tokens()
      ensures e == p.unlockEpoch
    {
    }
  }

  /** Every stored energy entry is right for the tokens attributed to its user, users without an entry have none, and
      every attributed token unlocks at the start of a month within the longest lock from now. */
  ghost predicate LedgerOk(energies: map<Address, EnergyEntry>, held: Holdings, epoch: nat, t: seq<LockOption>) {
    && t != []
    && (forall u :: u in energies ==> energies[u].lastUpdateEpoch <= epoch && Tracks(energies[u], Held(held, u)))
    && (forall u :: u !in energies ==> Held(held, u) == multiset{})
    && (forall u :: AllInHorizon(Held(held, u), epoch, t))
  }

  /** Of all stored entries, only the user's is written, depleted up to now. */
  ghost predicate OnlyEntryOf(before: map<Address, EnergyEntry>, after: map<Address, EnergyEntry>, user: Address,
                              epoch: nat) {
    user in after && after[user].lastUpdateEpoch == epoch && after == before[user := after[user]]
  }

  lemma LedgerUpdated(energies: map<Address, EnergyEntry>, held: Holdings, epoch: nat, t: seq<LockOption>,
                      user: Address, entry: EnergyEntry, m: multiset<nat>)
    requires LedgerOk(energies, held, epoch, t)
    requires entry.lastUpdateEpoch <= epoch && Tracks(entry, m) && AllInHorizon(m, epoch, t)
    ensures LedgerOk(energies[user := entry], held[user := m], epoch, t)
  {
    var energies', held' := energies[user := entry], held[user := m];
    forall u
      ensures u in energies' ==> energies'[u].lastUpdateEpoch <= epoch && Tracks(energies'[u], Held(held', u))
      ensures u !in energies' ==> Held(held', u) == multiset{}
      ensures AllInHorizon(Held(held', u), epoch, t)
    {
      assert u != user ==> Held(held', u) == Held(held, u);
    }
  }

  lemma LedgerOutlives(energies: map<Address, EnergyEntry>, held: Holdings, epoch: nat, t: seq<LockOption>, epoch': nat,
                       t': seq<LockOption>)
    requires LedgerOk(energies, held, epoch, t) && t' != []
    requires epoch <= epoch' && LongestLock(t) <= LongestLock(t')
    ensures LedgerOk(energies, held, epoch', t')
  {
    forall u
      ensures AllInHorizon(Held(held, u), epoch', t')
    {
      assert AllInHorizon(Held(held, u), epoch, t);
    }
  }

  /** Tokens waiting outside of any ledger keep to the same horizon. */
  ghost predicate PaymentsOk(ps: seq<Payment>, epoch: nat, t: seq<LockOption>)
    requires t != []
  {
    forall p :: p in ps && p.amount > 0 ==> InHorizon(p.unlockEpoch, epoch, t)
  }

  lemma {:induction false} PaymentsInHorizon(ps: seq<Payment>, epoch: nat, t: seq<LockOption>)
    requires t != []
    ensures PaymentsOk(ps, epoch, t) <==> AllInHorizon(AllTokens(ps), epoch, t)
  {
    if ps != [] {
      var n := |ps| - 1;
      var init, last := ps[..n], ps[n];
      assert ps == init + [last];
      PaymentsInHorizon(init, epoch, t);
      assert last.amount > 0 ==> last.unlockEpoch in last.Tokens();
      assert forall e :: e in AllTokens(ps) <==> e in AllTokens(init) || e in last.Tokens();
      assert forall e :: e in last.Tokens() <==> e == last.unlockEpoch && last.amount > 0;
      assert AllInHorizon(AllTokens(ps), epoch, t) <==>
             AllInHorizon(AllTokens(init), epoch, t) && AllInHorizon(last.Tokens(), epoch, t);
    }
  }

  /** Unbonding entries: in the order they mature, none paying out more than it locked. */
  ghost predicate QueueOk(queue: seq<UnstakePair>, epoch: nat, unbondEpochs: nat, t: seq<LockOption>)
    requires t != []
  {
    && (forall i :: 0 <= i < |queue| ==>
          queue[i].unlockEpoch <= epoch + unbondEpochs && queue[i].unlockedAmount <= queue[i].locked.amount)
    && (forall i, j :: 0 <= i < j < |queue| ==> queue[i].unlockEpoch <= queue[j].unlockEpoch)
    && PaymentsOk(LockedOf(queue), epoch, t)
  }

  ghost predicate QueuesOk(queues: map<Address, seq<UnstakePair>>, epoch: nat, unbondEpochs: nat, t: seq<LockOption>) {
    t != [] && forall u :: u in queues ==> QueueOk(queues[u], epoch, unbondEpochs, t)
  }

  /** Tokens on their way from one user to another, and since when. */
  datatype LockedFunds = LockedFunds(funds: seq<Payment>, lockedEpoch: nat)

  ghost predicate FundsOk(funds: map<(Address, Address), LockedFunds>, epoch: nat, t: seq<LockOption>) {
    t != [] && forall k :: k in funds ==> funds[k].lockedEpoch <= epoch && PaymentsOk(funds[k].funds, epoch, t)
  }

  ghost predicate InThePast(last: map<Address, nat>, epoch: nat) {
    forall u :: u in last ==> last[u] <= epoch
  }

  /** More than the cooldown has passed since the user's last transfer, if there was one. */
  predicate OffCooldown(last: map<Address, nat>, user: Address, epoch: nat, cooldown: nat) {
    user in last ==> epoch - last[user] > cooldown
  }

  lemma QueuesOutlive(queues: map<Address, seq<UnstakePair>>, epoch: nat, unbondEpochs: nat, t: seq<LockOption>,
                      epoch': nat, t': seq<LockOption>)
    requires QueuesOk(queues, epoch, unbondEpochs, t) && t' != []
    requires epoch <= epoch' && LongestLock(t) <= LongestLock(t')
    ensures QueuesOk(queues, epoch', unbondEpochs, t')
  {
    forall u | u in queues
      ensures QueueOk(queues[u], epoch', unbondEpochs, t')
    {
      assert QueueOk(queues[u], epoch, unbondEpochs, t);
    }
  }

  lemma FundsOutlive(funds: map<(Address, Address), LockedFunds>, epoch: nat, t: seq<LockOption>, epoch': nat,
                     t': seq<LockOption>)
    requires FundsOk(funds, epoch, t) && t' != []
    requires epoch <= epoch' && LongestLock(t) <= LongestLock(t')
    ensures FundsOk(funds, epoch', t')
  {
    forall k | k in funds
      ensures funds[k].lockedEpoch <= epoch' && PaymentsOk(funds[k].funds, epoch', t')
    {
      assert PaymentsOk(funds[k].funds, epoch, t);
    }
  }

  // ---- Steps of the endpoint loops ----

  lemma NothingTaken(ps: seq<Payment>, tokens: multiset<nat>)
    ensures tokens - AllTokens(ps[..0]) == tokens && |AllTokens(ps[..0])| == 0
    ensures ps[..|ps|] == ps
  {
  }

  /** The next payment is still among the tokens left after the earlier ones. */
  lemma NextPayment(ps: seq<Payment>, i: nat, tokens: multiset<nat>)
    requires i < |ps| && AllTokens(ps) <= tokens
    ensures ps[i].Tokens() <= tokens - AllTokens(ps[..i])
    ensures ps[i].amount <= |tokens - AllTokens(ps[..i])|
    ensures tokens - AllTokens(ps[..i + 1]) == tokens - AllTokens(ps[..i]) - ps[i].Tokens()
    ensures |AllTokens(ps[..i + 1])| == |AllTokens(ps[..i])| + ps[i].amount
  {
    AllTokensStep(ps, i);
    TokensAddUp(ps, i);
    PileWithin(ps[i].amount, ps[i].unlockEpoch, tokens - AllTokens(ps[..i]));
  }

  lemma MovedTracks(e: EnergyEntry, e': EnergyEntry, held: multiset<nat>, p: Payment, unlockEpoch: nat)
    requires Tracks(e, held) && e'.lastUpdateEpoch == e.lastUpdateEpoch && p.Tokens() <= held
    requires e'.totalLockedTokens == e.totalLockedTokens
    requires e'.amount == e.amount + p.amount * (unlockEpoch - p.unlockEpoch)
    ensures Tracks(e', held - p.Tokens() + Pile(p.amount, unlockEpoch))
  {
    hide Worth, Pile;
    var base := e.lastUpdateEpoch;
    PileWithin(p.amount, p.unlockEpoch, held);
    var mid := EnergyEntry(e.amount - p.amount * (p.unlockEpoch - base), base, e.totalLockedTokens - p.amount);
    RemovedTracks(e, mid, held, p.amount, p.unlockEpoch);
    assert p.amount * (unlockEpoch - p.unlockEpoch)
        == p.amount * (unlockEpoch - base) - p.amount * (p.unlockEpoch - base);
    AddedTracks(mid, e', held - p.Tokens(), p.amount, unlockEpoch);
  }

  /** Merged tokens stay within the horizon their parts kept to. */
  lemma MergedInHorizon(ps: seq<Payment>, tokens: multiset<nat>, epoch: nat, t: seq<LockOption>)
    requires IsTable(t) && ps != [] && Positive(ps) && AllTokens(ps) <= tokens && AllInHorizon(tokens, epoch, t)
    requires forall p :: p in ps ==> epoch < p.unlockEpoch
    ensures var e := UnlockEpochToStartOfMonthUpperEstimate(Merged(ps, |ps|).unlockEpoch, epoch, t);
            epoch < e && InHorizon(e, epoch, t)
            && AllInHorizon(tokens - AllTokens(ps) + Pile(Merged(ps, |ps|).amount, e), epoch, t)
    ensures Merged(ps, |ps|).amount == |AllTokens(ps)|
  {
    forall e | e in AllTokens(ps)
      ensures InHorizon(e, epoch, t)
    {
      assert e in tokens;
    }
    PaymentsInHorizon(ps, epoch, t);
    MergedBetween(ps, |ps|, epoch + 1, epoch + LongestLock(t));
    MergedAmount(ps, |ps|);
    assert ps[..|ps|] == ps;
    UpperEstimateInHorizon(Merged(ps, |ps|).unlockEpoch, epoch, t);
    var e := UnlockEpochToStartOfMonthUpperEstimate(Merged(ps, |ps|).unlockEpoch, epoch, t);
    HorizonKept(tokens, AllTokens(ps), Payment(Merged(ps, |ps|).amount, e), epoch, t);
  }

  lemma TokensAdded(m: multiset<nat>, p: Payment)
    ensures p.Tokens() <= m + p.Tokens()
  {
  }

  lemma NothingReturned(ps: seq<Payment>, tokens: multiset<nat>)
    ensures tokens + AllTokens(ps[..0]) == tokens
    ensures ps[..|ps|] == ps
  {
  }

  lemma NextReturned(ps: seq<Payment>, i: nat, tokens: multiset<nat>)
    requires i < |ps|
    ensures tokens + AllTokens(ps[..i + 1]) == tokens + AllTokens(ps[..i]) + ps[i].Tokens()
  {
    AllTokensStep(ps, i);
  }

  lemma EverythingInHorizon(energies: map<Address, EnergyEntry>, held: Holdings, epoch: nat, t: seq<LockOption>,
                            user: Address)
    requires LedgerOk(energies, held, epoch, t)
    ensures AllInHorizon(Held(held, user), epoch, t)
  {
  }

  lemma TakenPaymentInHorizon(energies: map<Address, EnergyEntry>, held: Holdings, epoch: nat, t: seq<LockOption>,
                              user: Address, p: Payment)
    requires LedgerOk(energies, held, epoch, t) && p.Tokens() <= Held(held, user)
    ensures p.amount > 0 ==> InHorizon(p.unlockEpoch, epoch, t)
    ensures AllInHorizon(Held(held, user) - p.Tokens(), epoch, t)
  {
    hide Worth, Pile;
    EverythingInHorizon(energies, held, epoch, t, user);
    PileWithin(p.amount, p.unlockEpoch, Held(held, user));
    HorizonKeptBySome(Held(held, user), p.Tokens(), epoch, t);
  }

  lemma EntryOfUser(energies: map<Address, EnergyEntry>, held: Holdings, epoch: nat, t: seq<LockOption>, user: Address)
    requires LedgerOk(energies, held, epoch, t) && user in energies
    ensures energies[user].lastUpdateEpoch <= epoch && Tracks(energies[user], Held(held, user))
  {
  }

  lemma TokensHaveEntry(energies: map<Address, EnergyEntry>, held: Holdings, epoch: nat, t: seq<LockOption>,
                        user: Address, p: Payment)
    requires LedgerOk(energies, held, epoch, t) && p.Tokens() <= Held(held, user) && p.amount > 0
    ensures user in energies
  {
    hide Worth, Pile;
    PileWithin(p.amount, p.unlockEpoch, Held(held, user));
  }

  lemma HorizonKeptByAll(m: multiset<nat>, ps: seq<Payment>, epoch: nat, t: seq<LockOption>)
    requires t != [] && AllInHorizon(m, epoch, t) && PaymentsOk(ps, epoch, t)
    ensures AllInHorizon(m + AllTokens(ps), epoch, t)
  {
    PaymentsInHorizon(ps, epoch, t);
  }

  /** Payments taken from a holding keep to the holding's horizon wherever they wait. */
  lemma TakenPaymentsOk(m: multiset<nat>, ps: seq<Payment>, epoch: nat, t: seq<LockOption>)
    requires t != [] && AllInHorizon(m, epoch, t) && AllTokens(ps) <= m
    ensures PaymentsOk(ps, epoch, t)
  {
    PaymentsInHorizon(ps, epoch, t);
    forall e | e in AllTokens(ps)
      ensures e in m
    {
    }
  }

  // ---- Early unlocks ----

  /** The lock of `p` can be cut to `newLock` epochs from now: something remains after the penalty. */
  ghost predicate CanReduce(t: seq<LockOption>, p: Payment, epoch: nat, newLock: nat)
    requires IsTable(t)
  {
    && p.amount > 0
    && epoch + newLock < p.unlockEpoch <= epoch + LongestLock(t)
    && PenaltyAmount(t, p.amount, p.unlockEpoch - epoch, newLock) < p.amount
  }

  lemma TokensOfPushed(queue: seq<UnstakePair>, pair: UnstakePair, m: multiset<nat>)
    requires pair.locked.Tokens() <= m
    ensures m - pair.locked.Tokens() + AllTokens(LockedOf(queue + [pair])) == m + AllTokens(LockedOf(queue))
    ensures queue == [] ==> m + AllTokens(LockedOf(queue)) == m
  {
    var all := LockedOf(queue + [pair]);
    assert all[..|queue|] == LockedOf(queue);
    AllTokensStep(all, |queue|);
    assert all[..|queue| + 1] == all;
  }

  datatype LockReduceResult = LockReduceResult(newLockEpochs: nat, unlockedTokens: nat)

  /** A shorter lock ends at the start of a month; no lock at all ends now. */
  function NewLockEpochs(optNewLockPeriod: Option<nat>, currentEpoch: nat): int {
    match optNewLockPeriod
    case Some(lockEpochs) =>
      var tentativeNewUnlockEpoch := currentEpoch + lockEpochs;
      lockEpochs - (tentativeNewUnlockEpoch - UnlockEpochToStartOfMonth(tentativeNewUnlockEpoch))
    case None => 0
  }

  /** A reduced lock ends at the start of the month the shorter lock would end in. */
  lemma ReducedTo(newLockPeriod: nat, currentEpoch: nat)
    ensures currentEpoch + NewLockEpochs(Some(newLockPeriod), currentEpoch)
         == UnlockEpochToStartOfMonth(currentEpoch + newLockPeriod)
  {
  }

  lemma NothingBurned(percentage: nat)
    ensures IsFloor(0, 0 * percentage, MAX_PENALTY_PERCENTAGE)
  {
  }

  lemma EmptyQueueOk(epoch: nat, unbondEpochs: nat, t: seq<LockOption>)
    requires t != []
    ensures QueueOk([], epoch, unbondEpochs, t)
  {
  }

  lemma QueueEntryOk(queue: seq<UnstakePair>, epoch: nat, unbondEpochs: nat, t: seq<LockOption>, i: nat)
    requires t != [] && QueueOk(queue, epoch, unbondEpochs, t) && i < |queue|
    ensures queue[i].unlockedAmount <= queue[i].locked.amount
  {
  }

  /** What unlocking early now leaves of a payment. */
  ghost function LeftAfterUnlock(t: seq<LockOption>, p: Payment, epoch: nat): int
    requires IsTable(t)
  {
    if epoch < p.unlockEpoch <= epoch + LongestLock(t)
    then p.amount - PenaltyAmount(t, p.amount, p.unlockEpoch - epoch, 0)
    else 0
  }

  lemma ShorterLock(t: seq<LockOption>, newLockPeriod: nat, epoch: nat)
    requires IsTable(t) && IsListed(t, newLockPeriod)
    ensures 0 < NewLockEpochs(Some(newLockPeriod), epoch)
    ensures epoch + NewLockEpochs(Some(newLockPeriod), epoch) == UnlockEpochToStartOfMonth(epoch + newLockPeriod)
  {
    StartOfMonthInHorizon(newLockPeriod, epoch, t);
  }

  lemma UnlockLeaves(t: seq<LockOption>, p: Payment, epoch: nat)
    requires IsTable(t) && CanReduce(t, p, epoch, 0)
    ensures LeftAfterUnlock(t, p, epoch) == p.amount - PenaltyAmount(t, p.amount, p.unlockEpoch - epoch, 0)
  {
  }

  lemma ReducedUnlocks(t: seq<LockOption>, p: Payment, reduced: Payment, epoch: nat, next: nat)
    requires IsTable(t) && 0 < next && CanReduce(t, p, epoch, next)
    requires reduced == Payment(p.amount - PenaltyAmount(t, p.amount, p.unlockEpoch - epoch, next), epoch + next)
    ensures var direct, left := LeftAfterUnlock(t, p, epoch), LeftAfterUnlock(t, reduced, epoch);
            && (direct > 0 ==> CanReduce(t, reduced, epoch, 0))
            && direct <= left <= direct + p.amount / MAX_PENALTY_PERCENTAGE + 2
  {
    hide PenaltyAmount, IsTable, LongestLock;
    ReduceThenUnlock(t, p.amount, p.unlockEpoch - epoch, next);
  }

  lemma QueuePushed(queue: seq<UnstakePair>, epoch: nat, unbondEpochs: nat, t: seq<LockOption>, pair: UnstakePair)
    requires t != [] && QueueOk(queue, epoch, unbondEpochs, t)
    requires pair.unlockEpoch == epoch + unbondEpochs && pair.unlockedAmount <= pair.locked.amount
    requires pair.locked.amount > 0 ==> InHorizon(pair.locked.unlockEpoch, epoch, t)
    ensures QueueOk(queue + [pair], epoch, unbondEpochs, t)
  {
    assert LockedOf(queue + [pair]) == LockedOf(queue) + [pair.locked];
  }

  lemma QueueOfUser(queues: map<Address, seq<UnstakePair>>, epoch: nat, unbondEpochs: nat, t: seq<LockOption>,
                    user: Address)
    requires QueuesOk(queues, epoch, unbondEpochs, t)
    ensures QueueOk(if user in queues then queues[user] else [], epoch, unbondEpochs, t)
  {
  }

  lemma QueuePopped(queue: seq<UnstakePair>, epoch: nat, unbondEpochs: nat, t: seq<LockOption>, n: nat)
    requires t != [] && QueueOk(queue, epoch, unbondEpochs, t) && n <= |queue|
    ensures QueueOk(queue[n..], epoch, unbondEpochs, t)
  {
    assert LockedOf(queue[n..]) == LockedOf(queue)[n..];
  }

  lemma QueueUpdated(queues: map<Address, seq<UnstakePair>>, epoch: nat, unbondEpochs: nat, t: seq<LockOption>,
                     user: Address, queue: seq<UnstakePair>)
    requires QueuesOk(queues, epoch, unbondEpochs, t) && QueueOk(queue, epoch, unbondEpochs, t)
    ensures QueuesOk(queues[user := queue], epoch, unbondEpochs, t)
  {
  }

  /** How many entries at the front of the queue have matured. */
  ghost function Matured(queue: seq<UnstakePair>, epoch: nat): (n: nat)
    ensures n <= |queue|
    ensures forall i :: 0 <= i < n ==> queue[i].unlockEpoch <= epoch
    ensures n < |queue| ==> epoch < queue[n].unlockEpoch
  {
    if queue == [] || epoch < queue[0].unlockEpoch then 0 else 1 + Matured(queue[1..], epoch)
  }

  /** In a queue kept in order the matured entries are exactly those at the front. */
  lemma MaturedAreInFront(queue: seq<UnstakePair>, epoch: nat, unbondEpochs: nat, t: seq<LockOption>, i: nat)
    requires t != [] && QueueOk(queue, epoch, unbondEpochs, t) && i < |queue|
    ensures i < Matured(queue, epoch) <==> queue[i].unlockEpoch <= epoch
  {
  }

  /** One entry further, or the end of the matured ones. */
  lemma MaturedAt(queue: seq<UnstakePair>, epoch: nat, i: nat)
    requires i <= Matured(queue, epoch)
    ensures i < |queue| && queue[i].unlockEpoch <= epoch ==> i + 1 <= Matured(queue, epoch)
    ensures i == |queue| || epoch < queue[i].unlockEpoch ==> i == Matured(queue, epoch)
  {
  }

  ghost function UnlockedOf(queue: seq<UnstakePair>): seq<nat> {
    seq(|queue|, i requires 0 <= i < |queue| => queue[i].unlockedAmount)
  }

  /** What becomes of one claimed entry's locked tokens. */
  datatype Split = Split(burned: nat, penaltyBurned: nat, penaltyForwarded: nat)

  /** As many locked tokens are burned as base tokens are paid out; the rest, the penalty, is burned in part and
      forwarded otherwise. */
  ghost predicate IsSplit(s: Split, pair: UnstakePair, burnPercentage: nat) {
    && s.burned == pair.unlockedAmount
    && s.burned + s.penaltyBurned + s.penaltyForwarded == pair.locked.amount
    && IsFloor(s.penaltyBurned, (s.penaltyBurned + s.penaltyForwarded) * burnPercentage, MAX_PENALTY_PERCENTAGE)
  }

  ghost predicate AreSplits(splits: seq<Split>, queue: seq<UnstakePair>, burnPercentage: nat) {
    |splits| == |queue| && forall k :: 0 <= k < |queue| ==> IsSplit(splits[k], queue[k], burnPercentage)
  }

  /** The penalty of an entry, waiting to be burned and forwarded. */
  datatype PenaltyTokens = PenaltyTokens(entry: nat, amount: nat)

  /** Entry k is split, or burned only, its penalty still waiting at `from` or later. */
  ghost predicate IsPending(s: Split, pair: UnstakePair, k: nat, penalties: seq<PenaltyTokens>, from: nat,
                            burnPercentage: nat) {
    || IsSplit(s, pair, burnPercentage)
    || (&& s == Split(pair.unlockedAmount, 0, 0)
        && exists j :: from <= j < |penalties| && penalties[j].entry == k)
  }

  ghost predicate ArePending(splits: seq<Split>, queue: seq<UnstakePair>, penalties: seq<PenaltyTokens>, from: nat,
                             burnPercentage: nat) {
    && |splits| == |queue|
    && (forall k :: 0 <= k < |queue| ==> IsPending(splits[k], queue[k], k, penalties, from, burnPercentage))
    && (forall j :: 0 <= j < |penalties| ==>
          && penalties[j].entry < |queue|
          && penalties[j].amount + queue[penalties[j].entry].unlockedAmount == queue[penalties[j].entry].locked.amount)
  }

  lemma PendingGrows(splits: seq<Split>, queue: seq<UnstakePair>, i: nat, penalties: seq<PenaltyTokens>,
                     burnPercentage: nat)
    requires i < |queue| && queue[i].unlockedAmount <= queue[i].locked.amount
    requires ArePending(splits, queue[..i], penalties, 0, burnPercentage)
    ensures var pair := queue[i];
            var penalty := pair.locked.amount - pair.unlockedAmount;
            ArePending(splits + [Split(pair.unlockedAmount, 0, 0)], queue[..i + 1],
                       if penalty > 0 then penalties + [PenaltyTokens(i, penalty)] else penalties, 0, burnPercentage)
  {
    var pair := queue[i];
    var penalty := pair.locked.amount - pair.unlockedAmount;
    var penalties' := if penalty > 0 then penalties + [PenaltyTokens(i, penalty)] else penalties;
    var splits' := splits + [Split(pair.unlockedAmount, 0, 0)];
    NothingBurned(burnPercentage);
    hide IsFloor;
    assert queue[..i + 1][i] == pair;
    forall k | 0 <= k < i + 1
      ensures IsPending(splits'[k], queue[..i + 1][k], k, penalties', 0, burnPercentage)
    {
      if k < i {
        assert queue[..i][k] == queue[k] && IsPending(splits[k], queue[..i][k], k, penalties, 0, burnPercentage);
        if !IsSplit(splits[k], queue[k], burnPercentage) {
          var j :| 0 <= j < |penalties| && penalties[j].entry == k;
          assert penalties'[j].entry == k;
        }
      } else if penalty > 0 {
        assert penalties'[|penalties|].entry == k;
      }
    }
  }

  /** One penalty is settled. */
  lemma PendingSettled(splits: seq<Split>, queue: seq<UnstakePair>, penalties: seq<PenaltyTokens>, j: nat,
                       burnPercentage: nat, burned: nat, forwarded: nat)
    requires j < |penalties| && ArePending(splits, queue, penalties, j, burnPercentage)
    requires burned + forwarded == penalties[j].amount
    requires IsFloor(burned, penalties[j].amount * burnPercentage, MAX_PENALTY_PERCENTAGE)
    ensures var k := penalties[j].entry;
            && k < |splits|
            && ArePending(splits[k := Split(queue[k].unlockedAmount, burned, forwarded)], queue, penalties, j + 1,
                          burnPercentage)
  {
    hide IsFloor;
    var e := penalties[j].entry;
    var splits' := splits[e := Split(queue[e].unlockedAmount, burned, forwarded)];
    assert IsSplit(splits'[e], queue[e], burnPercentage);
    forall k | 0 <= k < |queue|
      ensures IsPending(splits'[k], queue[k], k, penalties, j + 1, burnPercentage)
    {
      assert IsPending(splits[k], queue[k], k, penalties, j, burnPercentage);
      if k != e && !IsSplit(splits[k], queue[k], burnPercentage) {
        var l :| j <= l < |penalties| && penalties[l].entry == k;
        assert l != j && penalties[l].entry == k;
      }
    }
  }

  lemma PendingEntry(splits: seq<Split>, queue: seq<UnstakePair>, penalties: seq<PenaltyTokens>, j: nat,
                     burnPercentage: nat)
    requires j < |penalties| && ArePending(splits, queue, penalties, j, burnPercentage)
    ensures penalties[j].entry < |splits| == |queue|
    ensures splits[penalties[j].entry].burned == queue[penalties[j].entry].unlockedAmount
  {
    hide IsFloor;
    assert IsPending(splits[penalties[j].entry], queue[penalties[j].entry], penalties[j].entry, penalties, j,
                     burnPercentage);
  }

  lemma NothingPending(splits: seq<Split>, queue: seq<UnstakePair>, penalties: seq<PenaltyTokens>, burnPercentage: nat)
    ensures ArePending([], queue[..0], [], 0, burnPercentage)
    ensures ArePending(splits, queue, penalties, |penalties|, burnPercentage) ==>
              AreSplits(splits, queue, burnPercentage)
  {
    hide IsFloor;
  }

  /** The parts of all entries add up to what they locked and paid out. */
  lemma {:induction false} SplitsAddUp(splits: seq<Split>, queue: seq<UnstakePair>, burnPercentage: nat)
    requires AreSplits(splits, queue, burnPercentage)
    ensures BurnedSum(splits) == UnlockedSum(queue) && BurnedSum(splits) + PenaltySum(splits) == LockedSum(queue)
  {
    hide IsFloor;
    if queue != [] {
      var n := |queue| - 1;
      assert IsSplit(splits[n], queue[n], burnPercentage);
      forall k | 0 <= k < n
        ensures IsSplit(splits[..n][k], queue[..n][k], burnPercentage)
      {
        assert IsSplit(splits[k], queue[k], burnPercentage);
      }
      SplitsAddUp(splits[..n], queue[..n], burnPercentage);
    }
  }

  ghost function BurnedSum(splits: seq<Split>): nat {
    if splits == [] then 0 else BurnedSum(splits[..|splits| - 1]) + splits[|splits| - 1].burned
  }

  ghost function PenaltySum(splits: seq<Split>): nat {
    if splits == [] then 0
    else PenaltySum(splits[..|splits| - 1]) + splits[|splits| - 1].penaltyBurned + splits[|splits| - 1].penaltyForwarded
  }

  ghost function LockedSum(queue: seq<UnstakePair>): nat {
    if queue == [] then 0 else LockedSum(queue[..|queue| - 1]) + queue[|queue| - 1].locked.amount
  }

  ghost function UnlockedSum(queue: seq<UnstakePair>): nat {
    if queue == [] then 0 else UnlockedSum(queue[..|queue| - 1]) + queue[|queue| - 1].unlockedAmount
  }

  lemma SumsStep(queue: seq<UnstakePair>, i: nat)
    requires i < |queue|
    ensures LockedSum(queue[..i + 1]) == LockedSum(queue[..i]) + queue[i].locked.amount
    ensures UnlockedSum(queue[..i + 1]) == UnlockedSum(queue[..i]) + queue[i].unlockedAmount
  {
    assert queue[..i + 1][..i] == queue[..i];
  }

  // ---- Round trips ----

  ghost function Depleted(e: EnergyEntry, epoch: nat): EnergyEntry
    requires e.lastUpdateEpoch <= epoch
  {
    EnergyEntry(e.amount - e.totalLockedTokens * (epoch - e.lastUpdateEpoch), epoch, e.totalLockedTokens)
  }

  /** Whatever happened in between, once a user answers for the same tokens again the entry is what doing nothing but
      depleting would have left. */
  lemma SameTokensSameEnergy(e: EnergyEntry, e': EnergyEntry, held: multiset<nat>)
    requires Tracks(e, held) && Tracks(e', held) && e.lastUpdateEpoch <= e'.lastUpdateEpoch
    ensures e' == Depleted(e, e'.lastUpdateEpoch)
  {
    DepletedTracks(e, Depleted(e, e'.lastUpdateEpoch), held);
  }

  /** With further tokens on top, it counts these and what they are worth as well. */
  lemma MoreTokensMoreEnergy(e: EnergyEntry, e': EnergyEntry, held: multiset<nat>, more: multiset<nat>)
    requires Tracks(e, held) && Tracks(e', held + more) && e.lastUpdateEpoch <= e'.lastUpdateEpoch
    ensures e' == EnergyEntry(Depleted(e, e'.lastUpdateEpoch).amount + Worth(more, e'.lastUpdateEpoch),
                              e'.lastUpdateEpoch, e.totalLockedTokens + |more|)
  {
    hide Worth;
    DepletedTracks(e, Depleted(e, e'.lastUpdateEpoch), held);
    WorthPlus(held, more, e'.lastUpdateEpoch);
  }
}
