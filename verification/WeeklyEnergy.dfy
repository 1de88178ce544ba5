/** energy-integration/common-modules/weekly-rewards-splitting: the total energy of a week without visiting its
    users. */
module WeeklyEnergyBooks {
  import opened Chain
  import opened Wrappers
  import opened Arith
  import opened EnergyLedger
  import opened BoostedFactors

  const EPOCHS_IN_WEEK: nat := 7

  /** The energy a user had when last seen, and the week of it. */
  datatype ClaimProgress = ClaimProgress(week: Week, energy: EnergyEntry)

  datatype LockedTokensBucket = LockedTokensBucket(tokenAmount: nat, surplusEnergyAmount: nat)

  // ---- One user ----

  /** The energy a user shows in a later week. */
  function EnergyAt(p: ClaimProgress, week: Week): nat {
    Shown(p.energy.amount - p.energy.totalLockedTokens * (EPOCHS_IN_WEEK * (week - p.week)))
  }

  ghost predicate Seen(p: ClaimProgress, week: Week) {
    0 < p.week <= week && p.energy.amount > 0
  }

  /** The last week in which a user still shows energy, or in which it comes to nothing exactly. */
  ghost function Expiry(p: ClaimProgress): int
    requires p.energy.totalLockedTokens > 0
  {
    p.week + p.energy.amount / (p.energy.totalLockedTokens * EPOCHS_IN_WEEK)
  }

  function Surplus(energy: EnergyEntry): nat {
    if energy.totalLockedTokens == 0 then 0 else Shown(energy.amount) % (energy.totalLockedTokens * EPOCHS_IN_WEEK)
  }

  /** Full weeks of all tokens, and the surplus in the last one. */
  lemma EnergyByExpiry(p: ClaimProgress, week: Week)
    requires Seen(p, week) && p.energy.totalLockedTokens > 0
    ensures p.week <= Expiry(p) && Surplus(p.energy) < p.energy.totalLockedTokens * EPOCHS_IN_WEEK
    ensures EnergyAt(p, week) ==
              if week <= Expiry(p)
              then p.energy.totalLockedTokens * EPOCHS_IN_WEEK * (Expiry(p) - week) + Surplus(p.energy) else 0
  {
    var weekly := p.energy.totalLockedTokens * EPOCHS_IN_WEEK;
    var weeks := p.energy.amount / weekly;
    FloorNat(p.energy.amount, weekly);
    assert p.energy.amount == weeks * weekly + Surplus(p.energy);
    assert p.energy.totalLockedTokens * (EPOCHS_IN_WEEK * (week - p.week)) == weekly * (week - p.week);
    assert weekly * (Expiry(p) - week) == weeks * weekly - weekly * (week - p.week);
    if Expiry(p) < week {
      MulLe(Expiry(p) - week, -1, weekly);
    } else {
      MulNat(weekly, Expiry(p) - week);
    }
  }

  /** Tokens that still carry energy are in a bucket that was not shifted out yet. */
  ghost predicate Live(p: ClaimProgress, week: Week) {
    p.energy.totalLockedTokens > 0 && EnergyAt(p, week) > 0
  }

  /** Tokens whose energy comes to nothing exactly when the week begins: their bucket is the next to be shifted out. */
  ghost function Residue(p: ClaimProgress, week: Week): nat {
    if p.energy.totalLockedTokens > 0 && EnergyAt(p, week) == 0 && Expiry(p) == week then p.energy.totalLockedTokens
    else 0
  }

  lemma LiveByExpiry(p: ClaimProgress, week: Week)
    requires Seen(p, week)
    ensures p.energy.totalLockedTokens == 0 ==> !Live(p, week) && Residue(p, week) == 0
    ensures p.energy.totalLockedTokens > 0 ==>
              && (Live(p, week) <==> week < Expiry(p) || (week == Expiry(p) && Surplus(p.energy) > 0))
              && Residue(p, week) == if week == Expiry(p) && Surplus(p.energy) == 0 then p.energy.totalLockedTokens
                                     else 0
  {
    hide EnergyAt, Expiry, Surplus;
    if p.energy.totalLockedTokens > 0 {
      EnergyByExpiry(p, week);
      if week < Expiry(p) {
        MulLe(1, Expiry(p) - week, p.energy.totalLockedTokens * EPOCHS_IN_WEEK);
      }
    }
  }

  lemma WeeksToFullExpire(p: ClaimProgress, week: Week)
    requires Seen(p, week) && Live(p, week)
    ensures EnergyAt(p, week) / p.energy.totalLockedTokens / EPOCHS_IN_WEEK == Expiry(p) - week
  {
    hide EnergyAt, Expiry, Surplus;
    var tokens := p.energy.totalLockedTokens;
    var weekly := tokens * EPOCHS_IN_WEEK;
    EnergyByExpiry(p, week);
    assert week <= Expiry(p);
    var epochs := EnergyAt(p, week) / tokens;
    var weeks := Expiry(p) - week;
    FloorOf(EnergyAt(p, week), tokens);
    assert tokens * (EPOCHS_IN_WEEK * weeks) == weekly * weeks;
    assert tokens * (EPOCHS_IN_WEEK * weeks + EPOCHS_IN_WEEK) == weekly * weeks + weekly;
    LtOfMul(EPOCHS_IN_WEEK * weeks, epochs + 1, tokens);
    LtOfMul(epochs, EPOCHS_IN_WEEK * weeks + EPOCHS_IN_WEEK, tokens);
  }

  // ---- What is summed over all users ----

  /** The energy in a week; tokens and surplus that expire in it; tokens that expire in it or later; and the energy that
      users last seen up to a week can still claim for it. */
  datatype Measure =
    | EnergyIn(week: Week)
    | TokensDue(week: Week)
    | SurplusDue(week: Week)
    | TokensLive(week: Week)
    | Claimable(week: Week)

  ghost function Measured(k: Measure, p: ClaimProgress): nat {
    match k
    case EnergyIn(week) => EnergyAt(p, week)
    case TokensDue(week) => if p.energy.totalLockedTokens > 0 && Expiry(p) == week then p.energy.totalLockedTokens
                            else 0
    case SurplusDue(week) => if p.energy.totalLockedTokens > 0 && Expiry(p) == week then Surplus(p.energy) else 0
    case TokensLive(week) => if p.energy.totalLockedTokens > 0 && Expiry(p) >= week then p.energy.totalLockedTokens
                             else 0
    case Claimable(week) => if p.week <= week then EnergyAt(p, week) else 0
  }

  ghost function Sum(m: map<Address, nat>): nat {
    if m == map[] then 0
    else
      var u :| u in m;
      m[u] + Sum(m - {u})
  }

  lemma {:induction false} SumRemove(m: map<Address, nat>, u: Address)
    requires u in m
    ensures Sum(m) == m[u] + Sum(m - {u})
  {
    var v :| v in m && Sum(m) == m[v] + Sum(m - {v});
    if u != v {
      SumRemove(m - {v}, u);
      SumRemove(m - {u}, v);
      assert m - {v} - {u} == m - {u} - {v};
    }
  }

  ghost function Each(k: Measure, ps: map<Address, ClaimProgress>): map<Address, nat> {
    map u | u in ps :: Measured(k, ps[u])
  }

  ghost function Total(k: Measure, ps: map<Address, ClaimProgress>): nat {
    Sum(Each(k, ps))
  }

  ghost function Of(k: Measure, opt: Option<ClaimProgress>): nat {
    if opt.Some? then Measured(k, opt.value) else 0
  }

  ghost function Progress(ps: map<Address, ClaimProgress>, u: Address): Option<ClaimProgress> {
    if u in ps then Some(ps[u]) else None
  }

  /** One user's progress replaced, or cleared. */
  ghost function Replaced(ps: map<Address, ClaimProgress>, u: Address,
                          opt: Option<ClaimProgress>): map<Address, ClaimProgress> {
    if opt.Some? then ps[u := opt.value] else ps - {u}
  }

  lemma TotalWithout(k: Measure, ps: map<Address, ClaimProgress>, u: Address)
    ensures Total(k, ps) == Total(k, ps - {u}) + Of(k, Progress(ps, u))
  {
    hide Measured;
    if u in ps {
      SumRemove(Each(k, ps), u);
      assert Each(k, ps) - {u} == Each(k, ps - {u});
    } else {
      assert ps - {u} == ps;
    }
  }

  lemma TotalReplaced(k: Measure, ps: map<Address, ClaimProgress>, u: Address, opt: Option<ClaimProgress>)
    ensures Total(k, Replaced(ps, u, opt)) == Total(k, ps) - Of(k, Progress(ps, u)) + Of(k, opt)
    ensures Of(k, Progress(ps, u)) <= Total(k, ps)
  {
    hide Measured, Total;
    TotalWithout(k, ps, u);
    TotalWithout(k, Replaced(ps, u, opt), u);
    assert Replaced(ps, u, opt) - {u} == ps - {u};
  }

  lemma {:induction false} TotalSplits(k: Measure, a: Measure, b: Measure, c: Measure, scale: nat,
                                       ps: map<Address, ClaimProgress>)
    requires forall u :: u in ps ==>
              Measured(k, ps[u]) == Measured(a, ps[u]) + scale * Measured(b, ps[u]) + Measured(c, ps[u])
    ensures Total(k, ps) == Total(a, ps) + scale * Total(b, ps) + Total(c, ps)
    decreases |ps|
  {
    hide Measured, Total;
    if u :| u in ps {
      TotalWithout(k, ps, u);
      TotalWithout(a, ps, u);
      TotalWithout(b, ps, u);
      TotalWithout(c, ps, u);
      TotalSplits(k, a, b, c, scale, ps - {u});
      assert scale * (Total(b, ps - {u}) + Measured(b, ps[u]))
          == scale * Total(b, ps - {u}) + scale * Measured(b, ps[u]);
    } else {
      Nobody(k);
      Nobody(a);
      Nobody(b);
      Nobody(c);
      assert ps == map[];
    }
  }

  lemma Nobody(k: Measure)
    ensures Total(k, map[]) == 0
  {
    assert Each(k, map[]) == map[];
  }

  lemma OnlyOne(k: Measure, u: Address, p: ClaimProgress)
    ensures Total(k, map[u := p]) == Measured(k, p)
  {
    hide Measured;
    TotalWithout(k, map[u := p], u);
    assert map[u := p] - {u} == map[];
    Nobody(k);
  }

  lemma {:induction false} TotalSame(k: Measure, a: Measure, ps: map<Address, ClaimProgress>)
    requires forall u :: u in ps ==> Measured(k, ps[u]) == Measured(a, ps[u])
    ensures Total(k, ps) == Total(a, ps)
  {
    hide Measured;
    assert Each(k, ps) == Each(a, ps);
  }

  // ---- The books of one week ----

  function BucketAt(buckets: map<nat, LockedTokensBucket>, id: nat): LockedTokensBucket {
    if id in buckets then buckets[id] else LockedTokensBucket(0, 0)
  }

  ghost predicate AllSeen(ps: map<Address, ClaimProgress>, week: Week) {
    forall u :: u in ps ==> Seen(ps[u], week)
  }

  /** The first bucket is the current week's, and `residue` the tokens in it of users who were since updated. */
  ghost predicate BucketsOk(buckets: map<nat, LockedTokensBucket>, first: nat, ps: map<Address, ClaimProgress>,
                            week: Week, residue: nat) {
    forall id: nat :: first <= id ==>
      && BucketAt(buckets, id).tokenAmount
         == Total(TokensDue(id - first + week), ps) + (if id == first then residue else 0)
      && BucketAt(buckets, id).surplusEnergyAmount == Total(SurplusDue(id - first + week), ps)
  }

  /** The total is the energy of all users, each brought up to the week. */
  ghost predicate WeekBooksOk(energy: nat, tokens: nat, buckets: map<nat, LockedTokensBucket>, first: nat,
                              ps: map<Address, ClaimProgress>, week: Week, residue: nat) {
    && AllSeen(ps, week) && energy == Total(EnergyIn(week), ps) && tokens == Total(TokensLive(week), ps) + residue
    && BucketsOk(buckets, first, ps, week, residue)
  }

  lemma WeekPasses(p: ClaimProgress, week: Week)
    requires Seen(p, week)
    ensures Measured(EnergyIn(week), p)
         == Measured(EnergyIn(week + 1), p) + EPOCHS_IN_WEEK * Measured(TokensLive(week + 1), p)
            + Measured(SurplusDue(week), p)
    ensures Measured(TokensLive(week), p) == Measured(TokensDue(week), p) + Measured(TokensLive(week + 1), p)
  {
    hide EnergyAt, Expiry, Surplus;
    if p.energy.totalLockedTokens > 0 {
      var weekly := p.energy.totalLockedTokens * EPOCHS_IN_WEEK;
      EnergyByExpiry(p, week);
      EnergyByExpiry(p, week + 1);
      assert weekly * (Expiry(p) - week) == weekly * (Expiry(p) - (week + 1)) + weekly;
    } else {
      NoTokensLast(p, week);
    }
  }

  lemma NoTokensLast(p: ClaimProgress, week: Week)
    requires p.energy.totalLockedTokens == 0
    ensures EnergyAt(p, week) == EnergyAt(p, week + 1)
  {
  }

  lemma AllWeeksPass(ps: map<Address, ClaimProgress>, week: Week)
    requires AllSeen(ps, week)
    ensures Total(EnergyIn(week), ps)
         == Total(EnergyIn(week + 1), ps) + EPOCHS_IN_WEEK * Total(TokensLive(week + 1), ps)
            + Total(SurplusDue(week), ps)
    ensures Total(TokensLive(week), ps) == Total(TokensDue(week), ps) + Total(TokensLive(week + 1), ps)
  {
    hide Measured, Total;
    forall u | u in ps
      ensures Measured(EnergyIn(week), ps[u]) == Measured(EnergyIn(week + 1), ps[u])
                + EPOCHS_IN_WEEK * Measured(TokensLive(week + 1), ps[u]) + Measured(SurplusDue(week), ps[u])
      ensures Measured(TokensLive(week), ps[u])
           == Measured(TokensDue(week), ps[u]) + 0 * Measured(EnergyIn(week), ps[u])
              + Measured(TokensLive(week + 1), ps[u])
    {
      WeekPasses(ps[u], week);
    }
    TotalSplits(EnergyIn(week), EnergyIn(week + 1), TokensLive(week + 1), SurplusDue(week), EPOCHS_IN_WEEK, ps);
    TotalSplits(TokensLive(week), TokensDue(week), EnergyIn(week), TokensLive(week + 1), 0, ps);
  }

  /** Taking the first bucket out brings the totals to the next week: nothing is subtracted below zero. */
  lemma BucketShifted(energy: nat, tokens: nat, buckets: map<nat, LockedTokensBucket>, first: nat,
                      ps: map<Address, ClaimProgress>, week: Week, residue: nat, left: int)
    requires WeekBooksOk(energy, tokens, buckets, first, ps, week, residue)
    requires left == tokens - BucketAt(buckets, first).tokenAmount
    ensures 0 <= left && left * EPOCHS_IN_WEEK + BucketAt(buckets, first).surplusEnergyAmount <= energy
    ensures WeekBooksOk(energy - (left * EPOCHS_IN_WEEK + BucketAt(buckets, first).surplusEnergyAmount), left,
                        buckets - {first}, first + 1, ps, week + 1, 0)
  {
    hide Total;
    AllWeeksPass(ps, week);
    assert first - first + week == week;
    forall id: nat | first + 1 <= id
      ensures BucketAt(buckets - {first}, id) == BucketAt(buckets, id)
      ensures id - (first + 1) + (week + 1) == id - first + week
    {
    }
  }

  // ---- One user's update ----

  ghost function BucketOf(opt: Option<ClaimProgress>, week: Week, first: nat): Option<int> {
    if opt.Some? && Live(opt.value, week) then Some(Expiry(opt.value) - week + first) else None
  }

  ghost function LiveTokens(opt: Option<ClaimProgress>, week: Week): nat {
    if opt.Some? && Live(opt.value, week) then opt.value.energy.totalLockedTokens else 0
  }

  ghost function ResidueOf(opt: Option<ClaimProgress>, week: Week): nat {
    if opt.Some? then Residue(opt.value, week) else 0
  }

  /** What a user has in one bucket. */
  ghost function Share(opt: Option<ClaimProgress>, week: Week, first: nat, id: nat): LockedTokensBucket {
    if BucketOf(opt, week, first) == Some(id) then LockedTokensBucket(opt.value.energy.totalLockedTokens,
                                                                      Surplus(opt.value.energy))
    else LockedTokensBucket(0, 0)
  }

  lemma MeasuredInBucket(opt: Option<ClaimProgress>, week: Week, first: nat, id: nat)
    requires (opt.Some? ==> Seen(opt.value, week)) && first <= id
    ensures Of(TokensDue(id - first + week), opt)
         == Share(opt, week, first, id).tokenAmount + if id == first then ResidueOf(opt, week) else 0
    ensures Of(SurplusDue(id - first + week), opt) == Share(opt, week, first, id).surplusEnergyAmount
    ensures Of(TokensLive(week), opt) == LiveTokens(opt, week) + ResidueOf(opt, week)
    ensures BucketOf(opt, week, first).Some? ==> first <= BucketOf(opt, week, first).value
  {
    hide EnergyAt, Expiry, Surplus, Live, Residue;
    if opt.Some? {
      LiveByExpiry(opt.value, week);
    }
  }

  lemma InOneBucket(ps: map<Address, ClaimProgress>, u: Address, week: Week, first: nat, id: nat,
                    buckets: map<nat, LockedTokensBucket>, residue: nat)
    requires AllSeen(ps, week) && BucketsOk(buckets, first, ps, week, residue) && first <= id
    ensures Share(Progress(ps, u), week, first, id).tokenAmount <= BucketAt(buckets, id).tokenAmount
    ensures Share(Progress(ps, u), week, first, id).surplusEnergyAmount <= BucketAt(buckets, id).surplusEnergyAmount
  {
    hide Total, Share, ResidueOf;
    var prev := Progress(ps, u);
    MeasuredInBucket(prev, week, first, id);
    TotalReplaced(TokensDue(id - first + week), ps, u, None);
    TotalReplaced(SurplusDue(id - first + week), ps, u, None);
  }

  /** The user's tokens and surplus moved from one bucket to another. */
  ghost predicate Reallocated(buckets: map<nat, LockedTokensBucket>, buckets': map<nat, LockedTokensBucket>, first: nat,
                              week: Week, prev: Option<ClaimProgress>, next: Option<ClaimProgress>) {
    forall id: nat :: first <= id ==>
      && BucketAt(buckets', id).tokenAmount
         == BucketAt(buckets, id).tokenAmount - Share(prev, week, first, id).tokenAmount
            + Share(next, week, first, id).tokenAmount
      && BucketAt(buckets', id).surplusEnergyAmount
         == BucketAt(buckets, id).surplusEnergyAmount - Share(prev, week, first, id).surplusEnergyAmount
            + Share(next, week, first, id).surplusEnergyAmount
  }

  lemma BucketUpdated(buckets: map<nat, LockedTokensBucket>, buckets': map<nat, LockedTokensBucket>, first: nat,
                      ps: map<Address, ClaimProgress>, week: Week, residue: nat, u: Address,
                      next: Option<ClaimProgress>, id: nat)
    requires AllSeen(ps, week) && BucketsOk(buckets, first, ps, week, residue) && first <= id
    requires next.Some? ==> 0 < next.value.week == week && next.value.energy.amount > 0
    requires Reallocated(buckets, buckets', first, week, Progress(ps, u), next)
    ensures BucketAt(buckets', id).tokenAmount == Total(TokensDue(id - first + week), Replaced(ps, u, next))
              + if id == first then residue + ResidueOf(Progress(ps, u), week) else 0
    ensures BucketAt(buckets', id).surplusEnergyAmount == Total(SurplusDue(id - first + week), Replaced(ps, u, next))
  {
    hide Total, Share, Residue, BucketOf, LiveTokens, Replaced, EnergyAt;
    var prev := Progress(ps, u);
    MeasuredInBucket(prev, week, first, id);
    MeasuredInBucket(next, week, first, id);
    NoResidueYet(next, week);
    TotalReplaced(TokensDue(id - first + week), ps, u, next);
    TotalReplaced(SurplusDue(id - first + week), ps, u, next);
  }

  lemma NoResidueYet(next: Option<ClaimProgress>, week: Week)
    requires next.Some? ==> 0 < next.value.week == week && next.value.energy.amount > 0
    ensures ResidueOf(next, week) == 0
  {
  }

  /** With one user's energy replaced in the totals and in the buckets, the books are right for all users again. */
  lemma UserUpdated(energy: nat, tokens: nat, buckets: map<nat, LockedTokensBucket>,
                    buckets': map<nat, LockedTokensBucket>, first: nat, ps: map<Address, ClaimProgress>, week: Week,
                    residue: nat, u: Address, next: Option<ClaimProgress>)
    requires WeekBooksOk(energy, tokens, buckets, first, ps, week, residue)
    requires next.Some? ==> 0 < next.value.week == week && next.value.energy.amount > 0
    requires Reallocated(buckets, buckets', first, week, Progress(ps, u), next)
    ensures var prev := Progress(ps, u);
            && Of(EnergyIn(week), prev) <= energy && LiveTokens(prev, week) <= tokens
            && WeekBooksOk(energy - Of(EnergyIn(week), prev) + Of(EnergyIn(week), next),
                           tokens - LiveTokens(prev, week) + LiveTokens(next, week), buckets', first,
                           Replaced(ps, u, next), week, residue + ResidueOf(prev, week))
  {
    hide Total, Share, LiveTokens, ResidueOf, Reallocated, Of, EnergyAt;
    var prev, ps' := Progress(ps, u), Replaced(ps, u, next);
    TotalReplaced(EnergyIn(week), ps, u, next);
    TotalReplaced(TokensLive(week), ps, u, next);
    MeasuredInBucket(prev, week, first, first);
    MeasuredInBucket(next, week, first, first);
    NoResidueYet(next, week);
    forall id: nat | first <= id
      ensures BucketAt(buckets', id).tokenAmount
           == Total(TokensDue(id - first + week), ps') + (if id == first then residue + ResidueOf(prev, week) else 0)
      ensures BucketAt(buckets', id).surplusEnergyAmount == Total(SurplusDue(id - first + week), ps')
    {
      BucketUpdated(buckets, buckets', first, ps, week, residue, u, next, id);
    }
  }

  // ---- Claims for past weeks ----

  /** What users claimed for a past week, and all they still can, is within the total it ended with. */
  ghost predicate SpentOk(totals: map<Week, nat>, spent: map<Week, nat>, ps: map<Address, ClaimProgress>,
                          lastUpdate: Week) {
    && (forall w: Week :: w in totals ==> w <= lastUpdate)
    && (forall w: Week :: lastUpdate <= w ==> At(spent, w) == 0)
    && (forall w: Week :: w in totals && w < lastUpdate ==> At(spent, w) + Total(Claimable(w), ps) <= totals[w])
  }

  /** Totals change in the week of the last update only; older ones may be cleared. */
  ghost predicate PastKept(totals: map<Week, nat>, totals': map<Week, nat>, lastUpdate: Week) {
    forall w: Week :: w in totals' ==> w <= lastUpdate && (w < lastUpdate ==> w in totals && totals'[w] == totals[w])
  }

  lemma WeekEnds(totals: map<Week, nat>, totals': map<Week, nat>, spent: map<Week, nat>,
                 ps: map<Address, ClaimProgress>, lastUpdate: Week, week: Week)
    requires SpentOk(totals, spent, ps, lastUpdate) && AllSeen(ps, lastUpdate) && lastUpdate < week
    requires lastUpdate in totals ==> totals[lastUpdate] == Total(EnergyIn(lastUpdate), ps)
    requires PastKept(totals, totals', week)
    ensures SpentOk(totals', spent, ps, week)
  {
    hide Total;
    TotalSame(Claimable(lastUpdate), EnergyIn(lastUpdate), ps);
  }

  /** A user claims the weeks from `first` up to the current one, each with the energy in it. */
  lemma UserClaimed(totals: map<Week, nat>, totals': map<Week, nat>, spent: map<Week, nat>, spent': map<Week, nat>,
                    ps: map<Address, ClaimProgress>, week: Week, u: Address, next: Option<ClaimProgress>, first: Week)
    requires SpentOk(totals, spent, ps, week) && PastKept(totals, totals', week)
    requires first <= week && (next.Some? ==> next.value.week == week)
    requires first == week || (u in ps && ps[u].week <= first)
    requires forall w: Week :: At(spent', w) == At(spent, w) + if first <= w < week then EnergyAt(ps[u], w) else 0
    ensures SpentOk(totals', spent', Replaced(ps, u, next), week)
  {
    hide Total, EnergyAt;
    forall w: Week | w in totals' && w < week
      ensures At(spent', w) + Total(Claimable(w), Replaced(ps, u, next)) <= totals'[w]
    {
      TotalReplaced(Claimable(w), ps, u, next);
    }
  }

  /** What a user can still claim for a past week fits into what is left of its total. */
  lemma ClaimFits(energy: nat, tokens: nat, buckets: map<nat, LockedTokensBucket>, first: nat, totals: map<Week, nat>,
                  spent: map<Week, nat>, ps: map<Address, ClaimProgress>, lastUpdate: Week, residue: nat, u: Address,
                  week: Week)
    requires WeekBooksOk(energy, tokens, buckets, first, ps, lastUpdate, residue)
    requires SpentOk(totals, spent, ps, lastUpdate)
    requires u in ps && ps[u].week <= week && week in totals && energy == At(totals, lastUpdate)
    ensures At(spent, week) + EnergyAt(ps[u], week) <= totals[week]
  {
    hide Total, EnergyAt;
    TotalReplaced(Claimable(week), ps, u, None);
    TotalReplaced(EnergyIn(week), ps, u, None);
  }

  // ---- Start and end of weeks ----

  lemma NobodyYet(buckets: map<nat, LockedTokensBucket>, first: nat, week: Week)
    requires buckets == map[]
    ensures WeekBooksOk(0, 0, buckets, first, map[], week, 0) && SpentOk(map[], map[], map[], week)
  {
    hide Total;
    Nobody(EnergyIn(week));
    Nobody(TokensLive(week));
    forall id: nat | first <= id
      ensures BucketAt(buckets, id) == LockedTokensBucket(0, 0)
      ensures Total(TokensDue(id - first + week), map[]) == 0 == Total(SurplusDue(id - first + week), map[])
    {
      Nobody(TokensDue(id - first + week));
      Nobody(SurplusDue(id - first + week));
    }
  }

  lemma FirstUpdate(buckets: map<nat, LockedTokensBucket>, first: nat, week: Week, spent: map<Week, nat>)
    requires buckets == map[] && SpentOk(map[], spent, map[], 0)
    ensures WeekBooksOk(0, 0, buckets, first, map[], week, 0) && SpentOk(map[], spent, map[], week)
  {
    NobodyYet(buckets, first, week);
  }

  lemma LastWeekEnds(totals: map<Week, nat>, tokens: nat, buckets: map<nat, LockedTokensBucket>, first: nat,
                     totals': map<Week, nat>, spent: map<Week, nat>, ps: map<Address, ClaimProgress>, lastUpdate: Week,
                     residue: nat, week: Week)
    requires WeekBooksOk(At(totals, lastUpdate), tokens, buckets, first, ps, lastUpdate, residue)
    requires SpentOk(totals, spent, ps, lastUpdate) && lastUpdate < week
    requires forall w: Week :: w in totals' && w != week ==> w in totals && totals'[w] == totals[w]
    ensures PastKept(totals, totals', week) && SpentOk(totals', spent, ps, week)
  {
    hide Total;
    WeekEnds(totals, totals', spent, ps, lastUpdate, week);
  }

  lemma KeptAsIs(totals: map<Week, nat>, spent: map<Week, nat>, ps: map<Address, ClaimProgress>, week: Week)
    requires SpentOk(totals, spent, ps, week)
    ensures PastKept(totals, totals, week)
  {
  }
}

/** The storage of weekly-rewards-splitting, and the claims of a user over the weeks since the last one. */
module WeeklyRewards {
  import opened Chain
  import opened Wrappers
  import opened Arith
  import opened EnergyLedger
  import opened BoostedFactors
  import opened WeeklyEnergyBooks

  function SafeSub(a: nat, b: nat): nat {
    if a > b then a - b else 0
  }

  /** A past week a user claims, with the energy that counts for it and the total it is compared with. */
  datatype WeekClaim = WeekClaim(week: Week, energy: nat, totalEnergy: nat)

  /** What a user with energy left keeps. */
  function NextProgress(week: Week, energy: EnergyEntry): Option<ClaimProgress> {
    if Shown(energy.amount) > 0 then Some(ClaimProgress(week, energy)) else None
  }

  /** The first week a user claims. */
  function FirstClaim(opt: Option<ClaimProgress>, currentWeek: Week): Week
    requires opt.Some? ==> opt.value.week <= currentWeek
  {
    if opt.None? then currentWeek
    else if currentWeek - opt.value.week > USER_MAX_CLAIM_WEEKS then currentWeek - USER_MAX_CLAIM_WEEKS
    else opt.value.week
  }

  /** The energy of every week from the first on, as the progress shows it. */
  ghost predicate AreClaims(claims: seq<WeekClaim>, opt: Option<ClaimProgress>, currentWeek: Week,
                            totals: map<Week, nat>)
    requires opt.Some? ==> opt.value.week <= currentWeek
  {
    && |claims| == currentWeek - FirstClaim(opt, currentWeek)
    && forall i :: 0 <= i < |claims| ==>
         var week := FirstClaim(opt, currentWeek) + i;
         claims[i] == WeekClaim(week, EnergyAt(opt.value, week), At(totals, week))
  }

  ghost predicate AmongClaims(claims: seq<WeekClaim>, week: Week) {
    exists i :: 0 <= i < |claims| && claims[i].week == week
  }

  /** Every week from the last claim on, of the four before the current one, and no other, once each and in order. */
  ghost predicate AreWeeksSince(claims: seq<WeekClaim>, opt: Option<ClaimProgress>, currentWeek: Week) {
    && (forall w: Week :: AmongClaims(claims, w) <==>
          opt.Some? && opt.value.week <= w < currentWeek <= w + USER_MAX_CLAIM_WEEKS)
    && forall i, j :: 0 <= i < j < |claims| ==> claims[i].week < claims[j].week
  }

  lemma ClaimsCoverWeeks(claims: seq<WeekClaim>, opt: Option<ClaimProgress>, currentWeek: Week, totals: map<Week, nat>)
    requires opt.Some? ==> opt.value.week <= currentWeek
    requires AreClaims(claims, opt, currentWeek, totals)
    ensures AreWeeksSince(claims, opt, currentWeek)
  {
    hide EnergyAt;
    forall w: Week
      ensures AmongClaims(claims, w) <==>
                opt.Some? && opt.value.week <= w < currentWeek <= w + USER_MAX_CLAIM_WEEKS
    {
      if opt.Some? && opt.value.week <= w < currentWeek <= w + USER_MAX_CLAIM_WEEKS {
        assert claims[w - FirstClaim(opt, currentWeek)].week == w;
      }
    }
  }

  ghost function ClaimsOf(opt: Option<ClaimProgress>, currentWeek: Week, totals: map<Week, nat>): (r: seq<WeekClaim>)
    requires opt.Some? ==> opt.value.week <= currentWeek
    ensures AreClaims(r, opt, currentWeek, totals)
  {
    var first := FirstClaim(opt, currentWeek);
    seq(currentWeek - first, i requires 0 <= i < currentWeek - first =>
      WeekClaim(first + i, EnergyAt(opt.value, first + i), At(totals, first + i)))
  }

  lemma ClaimsDetermined(claims: seq<WeekClaim>, claims': seq<WeekClaim>, opt: Option<ClaimProgress>, currentWeek: Week,
                         totals: map<Week, nat>)
    requires opt.Some? ==> opt.value.week <= currentWeek
    requires AreClaims(claims, opt, currentWeek, totals) && AreClaims(claims', opt, currentWeek, totals)
    ensures claims == claims'
  {
    hide EnergyAt;
    forall i | 0 <= i < |claims|
      ensures claims[i] == claims'[i]
    {
    }
  }

  lemma OneWeekMore(p: ClaimProgress, week: Week, amount: int)
    requires amount == p.energy.amount - p.energy.totalLockedTokens * (EPOCHS_IN_WEEK * (week - p.week))
    ensures amount - p.energy.totalLockedTokens * EPOCHS_IN_WEEK
         == p.energy.amount - p.energy.totalLockedTokens * (EPOCHS_IN_WEEK * (week + 1 - p.week))
  {
  }

  /** Week by week the energy depletes, weeks too far back being skipped at once. */
  method ClaimWeeks(p: ClaimProgress, currentWeek: Week, totals: map<Week, nat>) returns (claims: seq<WeekClaim>)
    requires p.week <= currentWeek
    ensures AreClaims(claims, Some(p), currentWeek, totals)
  {
    var energy := new Energy(p.energy);
    var week, totalWeeksToClaim := p.week, currentWeek - p.week;
    if totalWeeksToClaim > USER_MAX_CLAIM_WEEKS {
      var extraWeeks := totalWeeksToClaim - USER_MAX_CLAIM_WEEKS;
      energy.Deplete(energy.lastUpdateEpoch + EPOCHS_IN_WEEK * extraWeeks);
      week := week + extraWeeks;
    }
    claims := [];
    while week < currentWeek
      invariant FirstClaim(Some(p), currentWeek) <= week <= currentWeek
      invariant |claims| == week - FirstClaim(Some(p), currentWeek)
      invariant energy.totalLockedTokens == p.energy.totalLockedTokens
      invariant energy.amount == p.energy.amount - p.energy.totalLockedTokens * (EPOCHS_IN_WEEK * (week - p.week))
      invariant forall i :: 0 <= i < |claims| ==>
                  var w := FirstClaim(Some(p), currentWeek) + i;
                  claims[i] == WeekClaim(w, EnergyAt(p, w), At(totals, w))
    {
      claims := claims + [WeekClaim(week, Shown(energy.amount), At(totals, week))];
      OneWeekMore(p, week, energy.amount);
      energy.Deplete(energy.lastUpdateEpoch + EPOCHS_IN_WEEK);
      week := week + 1;
    }
  }

  /** What users claimed of every week, with the weeks from `first` on claimed once more. */
  ghost function Spent(spent: map<Week, nat>, opt: Option<ClaimProgress>, first: Week,
                       currentWeek: Week): map<Week, nat>
    requires first < currentWeek ==> opt.Some?
  {
    map w: Week | w < currentWeek :: At(spent, w) + if first <= w then EnergyAt(opt.value, w) else 0
  }

  /** An energy entry brought up to the current week. */
  ghost predicate IsDepleted(prev: Option<ClaimProgress>, week: Week, original: EnergyEntry, depleted: EnergyEntry) {
    && (prev.None? ==> original.totalLockedTokens == 0 == Shown(original.amount))
    && (prev.Some? ==>
          Seen(prev.value, week) && original == prev.value.energy
          && Shown(depleted.amount) == EnergyAt(prev.value, week))
    && (prev.None? ==> depleted.amount == original.amount)
    && depleted.totalLockedTokens == original.totalLockedTokens
  }

  method DepletedEnergy(original: EnergyEntry, lastActiveWeek: Week, currentWeek: Week,
                        ghost prev: Option<ClaimProgress>)
    returns (r: EnergyEntry)
    requires lastActiveWeek <= currentWeek
    requires if prev.Some? then Seen(prev.value, currentWeek) && prev.value == ClaimProgress(lastActiveWeek, original)
             else original == EnergyEntry(0, 0, 0)
    ensures IsDepleted(prev, currentWeek, original, r)
  {
    var energy := new Energy(original);
    if currentWeek != lastActiveWeek {
      var weekDiff := currentWeek - lastActiveWeek;
      energy.Deplete(energy.lastUpdateEpoch + weekDiff * EPOCHS_IN_WEEK);
    }
    r := energy.Entry();
  }

  lemma EnergyNow(p: ClaimProgress)
    ensures EnergyAt(p, p.week) == Shown(p.energy.amount)
  {
  }

  /** The bucket found for an entry is the one of the week in which its energy expires. */
  lemma DepletedBucket(prev: Option<ClaimProgress>, week: Week, first: nat, original: EnergyEntry,
                       depleted: EnergyEntry)
    requires IsDepleted(prev, week, original, depleted)
    ensures LiveTokens(prev, week) > 0 <==> depleted.totalLockedTokens > 0 && Shown(depleted.amount) > 0
    ensures LiveTokens(prev, week) > 0 ==>
              && prev.value.energy == original
              && BucketOf(prev, week, first)
                 == Some(Shown(depleted.amount) / depleted.totalLockedTokens / EPOCHS_IN_WEEK + first)
    ensures LiveTokens(prev, week) == 0 ==> BucketOf(prev, week, first) == None
  {
    hide EnergyAt, Expiry;
    if prev.Some? && Live(prev.value, week) {
      WeeksToFullExpire(prev.value, week);
    }
  }

  /** A bucket holds at least what one user has in it. */
  ghost predicate Covered(opt: Option<ClaimProgress>, week: Week, first: nat, buckets: map<nat, LockedTokensBucket>) {
    forall id: nat :: first <= id ==>
      && Share(opt, week, first, id).tokenAmount <= BucketAt(buckets, id).tokenAmount
      && Share(opt, week, first, id).surplusEnergyAmount <= BucketAt(buckets, id).surplusEnergyAmount
  }

  lemma ReallocatedTwice(before: map<nat, LockedTokensBucket>, between: map<nat, LockedTokensBucket>,
                         after: map<nat, LockedTokensBucket>, first: nat, week: Week, prev: Option<ClaimProgress>,
                         next: Option<ClaimProgress>)
    requires Reallocated(before, between, first, week, prev, None)
    requires Reallocated(between, after, first, week, None, next)
    ensures Reallocated(before, after, first, week, prev, next)
  {
    hide Live, Expiry, Surplus;
  }

  lemma UserSeen(energy: nat, tokens: nat, buckets: map<nat, LockedTokensBucket>, first: nat,
                 ps: map<Address, ClaimProgress>, week: Week, residue: nat, user: Address)
    requires WeekBooksOk(energy, tokens, buckets, first, ps, week, residue)
    ensures user in ps ==> Seen(ps[user], week)
    ensures Covered(Progress(ps, user), week, first, buckets)
  {
    hide Total, Share;
    forall id: nat | first <= id
      ensures Share(Progress(ps, user), week, first, id).tokenAmount <= BucketAt(buckets, id).tokenAmount
      ensures Share(Progress(ps, user), week, first, id).surplusEnergyAmount
           <= BucketAt(buckets, id).surplusEnergyAmount
    {
      InOneBucket(ps, user, week, first, id, buckets, residue);
    }
  }

  lemma UserAmounts(prev: Option<ClaimProgress>, next: Option<ClaimProgress>, week: Week, depleted: EnergyEntry,
                    energy: EnergyEntry)
    requires next == NextProgress(week, energy)
    requires prev.Some? ==>
              Shown(depleted.amount) == EnergyAt(prev.value, week)
              && depleted.totalLockedTokens == prev.value.energy.totalLockedTokens
    requires prev.None? ==> Shown(depleted.amount) == 0
    ensures Of(EnergyIn(week), prev) == Shown(depleted.amount) && Of(EnergyIn(week), next) == Shown(energy.amount)
    ensures LiveTokens(prev, week) > 0 ==> LiveTokens(prev, week) == depleted.totalLockedTokens
    ensures LiveTokens(next, week) > 0 ==> LiveTokens(next, week) == energy.totalLockedTokens
  {
    if next.Some? {
      EnergyNow(next.value);
    }
  }

  lemma NothingSpentYet(totals: map<Week, nat>, spent: map<Week, nat>, ps: map<Address, ClaimProgress>, week: Week)
    requires SpentOk(totals, spent, ps, week)
    ensures forall w: Week :: week <= w ==> At(spent, w) == 0
  {
  }

  lemma SpentWithin(totals: map<Week, nat>, spent: map<Week, nat>, ps: map<Address, ClaimProgress>, week: Week)
    requires SpentOk(totals, spent, ps, week)
    ensures forall w: Week :: w in totals && w < week ==> At(spent, w) <= totals[w]
  {
    hide Total;
  }

  lemma OnlyCurrent(totals: map<Week, nat>, spent: map<Week, nat>, ps: map<Address, ClaimProgress>, week: Week,
                    energy: nat)
    requires SpentOk(totals, spent, ps, week)
    ensures SpentOk(totals[week := energy], spent, ps, week)
  {
  }

  // ---- What an update leaves alone ----

  /** The week that can no longer be claimed, cleared when a week is updated for the first time. */
  ghost predicate IsCleared(week: Week, lastUpdate: Week, currentWeek: Week) {
    lastUpdate != 0 && lastUpdate != currentWeek && 0 < week && week + USER_MAX_CLAIM_WEEKS + 1 == currentWeek
  }

  function Stored(m: map<Week, nat>, week: Week): Option<nat> {
    if week in m then Some(m[week]) else None
  }

  /** Only the current week's total changes. */
  ghost predicate OthersKept(totals: map<Week, nat>, totals': map<Week, nat>, lastUpdate: Week, currentWeek: Week) {
    forall w: Week :: w != currentWeek ==>
      Stored(totals', w) == if IsCleared(w, lastUpdate, currentWeek) then None else Stored(totals, w)
  }

  ghost predicate OnlyCleared(rewards: map<Week, nat>, rewards': map<Week, nat>, lastUpdate: Week, currentWeek: Week) {
    forall w: Week :: Stored(rewards', w) == if IsCleared(w, lastUpdate, currentWeek) then None else Stored(rewards, w)
  }

  /** Everything a call may write. */
  datatype Storage = Storage(
    lastGlobalUpdateWeek: Week, totalEnergyForWeek: map<Week, nat>, totalLockedTokensForWeek: map<Week, nat>,
    totalRewardsForWeek: map<Week, nat>, firstBucketId: nat, lockedTokensInBucket: map<nat, LockedTokensBucket>,
    currentClaimProgress: map<Address, ClaimProgress>)

  class WeeklyRewardsSplitting {
    var currentWeek: Week
    var lastGlobalUpdateWeek: Week
    var totalEnergyForWeek: map<Week, nat>
    var totalLockedTokensForWeek: map<Week, nat>
    var totalRewardsForWeek: map<Week, nat>
    var firstBucketId: nat
    var lockedTokensInBucket: map<nat, LockedTokensBucket>
    var currentClaimProgress: map<Address, ClaimProgress>
    ghost var residue: nat
    /** The energy that was claimed for every week. */
    ghost var spent: map<Week, nat>

    ghost predicate BooksOk(ps: map<Address, ClaimProgress>)
      reads this
    {
      WeekBooksOk(At(totalEnergyForWeek, lastGlobalUpdateWeek), At(totalLockedTokensForWeek, lastGlobalUpdateWeek),
                  lockedTokensInBucket, firstBucketId, ps, lastGlobalUpdateWeek, residue)
    }

    ghost predicate Valid()
      reads this
    {
      && 0 < currentWeek && lastGlobalUpdateWeek <= currentWeek
      && BooksOk(currentClaimProgress) && SpentOk(totalEnergyForWeek, spent, currentClaimProgress, lastGlobalUpdateWeek)
      && (lastGlobalUpdateWeek == 0 ==> totalEnergyForWeek == map[] == totalLockedTokensForWeek && residue == 0
                                        && currentClaimProgress == map[] && lockedTokensInBucket == map[])
    }

    constructor ()
      ensures Valid() && currentWeek == 1 && lastGlobalUpdateWeek == 0 && currentClaimProgress == map[]
      ensures totalEnergyForWeek == map[] == totalRewardsForWeek && spent == map[]
    {
      hide WeekBooksOk, SpentOk;
      currentWeek, lastGlobalUpdateWeek, firstBucketId := 1, 0, 0;
      totalEnergyForWeek, totalLockedTokensForWeek, totalRewardsForWeek := map[], map[], map[];
      lockedTokensInBucket, currentClaimProgress := map[], map[];
      residue, spent := 0, map[];
      NobodyYet(map[], 0, 0);
    }

    /** The total energy is the sum over all users. */
    lemma TotalEnergyIsSum()
      requires Valid()
      ensures At(totalEnergyForWeek, lastGlobalUpdateWeek)
           == Total(EnergyIn(lastGlobalUpdateWeek), currentClaimProgress)
    {
    }

    lemma UserClaimFits(user: Address, week: Week)
      requires Valid() && user in currentClaimProgress && currentClaimProgress[user].week <= week
      requires week in totalEnergyForWeek
      ensures At(spent, week) + EnergyAt(currentClaimProgress[user], week) <= totalEnergyForWeek[week]
    {
      hide WeekBooksOk, SpentOk, EnergyAt;
      ClaimFits(At(totalEnergyForWeek, lastGlobalUpdateWeek), At(totalLockedTokensForWeek, lastGlobalUpdateWeek),
                lockedTokensInBucket, firstBucketId, totalEnergyForWeek, spent, currentClaimProgress,
                lastGlobalUpdateWeek, residue, user, week);
    }

    function Saved(): Storage
      reads this
    {
      Storage(lastGlobalUpdateWeek, totalEnergyForWeek, totalLockedTokensForWeek, totalRewardsForWeek, firstBucketId,
              lockedTokensInBucket, currentClaimProgress)
    }

    /** A revert takes back what a call wrote. */
    method Revert(s: Storage, ghost oldResidue: nat, ghost oldSpent: map<Week, nat>)
      modifies this`lastGlobalUpdateWeek, this`totalEnergyForWeek, this`totalLockedTokensForWeek,
               this`totalRewardsForWeek, this`firstBucketId, this`lockedTokensInBucket, this`residue,
               this`currentClaimProgress, this`spent
      ensures Saved() == s && residue == oldResidue && spent == oldSpent
    {
      lastGlobalUpdateWeek, totalEnergyForWeek := s.lastGlobalUpdateWeek, s.totalEnergyForWeek;
      totalLockedTokensForWeek, totalRewardsForWeek := s.totalLockedTokensForWeek, s.totalRewardsForWeek;
      firstBucketId, lockedTokensInBucket := s.firstBucketId, s.lockedTokensInBucket;
      currentClaimProgress, residue, spent := s.currentClaimProgress, oldResidue, oldSpent;
    }

    method AdvanceWeek(week: Week)
      requires Valid() && currentWeek <= week
      modifies this`currentWeek
      ensures Valid() && currentWeek == week
    {
      currentWeek := week;
    }

    /** Taking bucket after bucket out brings the totals to the current week; the subtraction is never cut off. */
    method ShiftBucketsAndUpdateTokensEnergy(nrPosToShift: nat, totalTokens: nat, energyAmount: nat, ghost week: Week)
      returns (tokens: nat, energy: nat)
      requires WeekBooksOk(energyAmount, totalTokens, lockedTokensInBucket, firstBucketId, currentClaimProgress, week,
                           residue)
      modifies this`firstBucketId, this`lockedTokensInBucket, this`residue
      ensures WeekBooksOk(energy, tokens, lockedTokensInBucket, firstBucketId, currentClaimProgress,
                          week + nrPosToShift, residue)
    {
      hide WeekBooksOk;
      tokens, energy := totalTokens, energyAmount;
      for i := 0 to nrPosToShift
        invariant WeekBooksOk(energy, tokens, lockedTokensInBucket, firstBucketId, currentClaimProgress, week + i,
                              residue)
      {
        var bucket := BucketAt(lockedTokensInBucket, firstBucketId);
        BucketShifted(energy, tokens, lockedTokensInBucket, firstBucketId, currentClaimProgress, week + i, residue,
                      tokens - bucket.tokenAmount);
        lockedTokensInBucket := lockedTokensInBucket - {firstBucketId};
        tokens := tokens - bucket.tokenAmount;
        var energyDeplete := tokens * EPOCHS_IN_WEEK + bucket.surplusEnergyAmount;
        energy := SafeSub(energy, energyDeplete);
        firstBucketId := firstBucketId + 1;
        residue := 0;
      }
    }

    method PerformWeeklyUpdate()
      requires Valid()
      modifies this`lastGlobalUpdateWeek, this`totalEnergyForWeek, this`totalLockedTokensForWeek,
               this`totalRewardsForWeek, this`firstBucketId, this`lockedTokensInBucket, this`residue
      ensures Valid() && lastGlobalUpdateWeek == currentWeek
      ensures OthersKept(old(totalEnergyForWeek), totalEnergyForWeek, old(lastGlobalUpdateWeek), currentWeek)
      ensures OnlyCleared(old(totalRewardsForWeek), totalRewardsForWeek, old(lastGlobalUpdateWeek), currentWeek)
    {
      hide WeekBooksOk, SpentOk, PastKept;
      var lastUpdate := lastGlobalUpdateWeek;
      if lastUpdate == currentWeek {
        return;
      }
      lastGlobalUpdateWeek := currentWeek;
      if lastUpdate == 0 {
        FirstUpdate(lockedTokensInBucket, firstBucketId, currentWeek, spent);
        return;
      }
      var totalEnergy, totalTokens := At(totalEnergyForWeek, lastUpdate), At(totalLockedTokensForWeek, lastUpdate);
      totalTokens, totalEnergy := ShiftBucketsAndUpdateTokensEnergy(currentWeek - lastUpdate, totalTokens, totalEnergy,
                                                                    lastUpdate);
      totalEnergyForWeek := totalEnergyForWeek[currentWeek := totalEnergy];
      totalLockedTokensForWeek := (totalLockedTokensForWeek - {lastUpdate})[currentWeek := totalTokens];
      if currentWeek > USER_MAX_CLAIM_WEEKS + 1 {
        var inaccessibleWeek := currentWeek - USER_MAX_CLAIM_WEEKS - 1;
        totalRewardsForWeek := totalRewardsForWeek - {inaccessibleWeek};
        totalEnergyForWeek := totalEnergyForWeek - {inaccessibleWeek};
      }
      LastWeekEnds(old(totalEnergyForWeek), At(old(totalLockedTokensForWeek), lastUpdate), old(lockedTokensInBucket),
                   old(firstBucketId), totalEnergyForWeek, spent, currentClaimProgress, lastUpdate, old(residue),
                   currentWeek);
    }

    function GetBucketIdForEnergy(energy: EnergyEntry): Option<nat>
      reads this
    {
      if energy.totalLockedTokens == 0 || Shown(energy.amount) == 0 then None
      else
        FloorNat(Shown(energy.amount), energy.totalLockedTokens);
        FloorNat(Shown(energy.amount) / energy.totalLockedTokens, EPOCHS_IN_WEEK);
        Some(Shown(energy.amount) / energy.totalLockedTokens / EPOCHS_IN_WEEK + firstBucketId)
    }

    method InitAndUpdateBucket(id: nat, tokensOut: nat, surplusOut: nat, tokensIn: nat, surplusIn: nat)
      requires tokensOut <= BucketAt(lockedTokensInBucket, id).tokenAmount
      requires surplusOut <= BucketAt(lockedTokensInBucket, id).surplusEnergyAmount
      modifies this`lockedTokensInBucket
      ensures forall b: nat :: BucketAt(lockedTokensInBucket, b) ==
                var was := old(BucketAt(lockedTokensInBucket, b));
                if b == id then LockedTokensBucket(was.tokenAmount - tokensOut + tokensIn,
                                                   was.surplusEnergyAmount - surplusOut + surplusIn)
                else was
    {
      var bucket := BucketAt(lockedTokensInBucket, id);
      var updated := LockedTokensBucket(bucket.tokenAmount - tokensOut + tokensIn,
                                        bucket.surplusEnergyAmount - surplusOut + surplusIn);
      lockedTokensInBucket := lockedTokensInBucket[id := updated];
    }

    /** The user's tokens leave the bucket of the energy as it is now. */
    method LeaveBucket(original: EnergyEntry, depleted: EnergyEntry,
                       ghost prev: Option<ClaimProgress>) returns (hadPrev: bool)
      requires IsDepleted(prev, currentWeek, original, depleted)
      requires Covered(prev, currentWeek, firstBucketId, lockedTokensInBucket)
      modifies this`lockedTokensInBucket
      ensures Reallocated(old(lockedTokensInBucket), lockedTokensInBucket, firstBucketId, currentWeek, prev, None)
      ensures hadPrev <==> LiveTokens(prev, currentWeek) > 0
    {
      hide EnergyAt, Expiry, Surplus, Live;
      DepletedBucket(prev, currentWeek, firstBucketId, original, depleted);
      var optPrevBucket := GetBucketIdForEnergy(depleted);
      if optPrevBucket.Some? {
        InitAndUpdateBucket(optPrevBucket.value, original.totalLockedTokens, Surplus(original), 0, 0);
      }
      hadPrev := optPrevBucket.Some?;
    }

    /** They enter that of the new energy. */
    method EnterBucket(energy: EnergyEntry) returns (hasCurrent: bool)
      requires 0 < currentWeek
      modifies this`lockedTokensInBucket
      ensures Reallocated(old(lockedTokensInBucket), lockedTokensInBucket, firstBucketId, currentWeek, None,
                          NextProgress(currentWeek, energy))
      ensures hasCurrent <==> LiveTokens(NextProgress(currentWeek, energy), currentWeek) > 0
    {
      hide EnergyAt, Expiry, Surplus, Live;
      ghost var next := NextProgress(currentWeek, energy);
      var optCurrentBucket := GetBucketIdForEnergy(energy);
      if next.Some? {
        EnergyNow(next.value);
        DepletedBucket(next, currentWeek, firstBucketId, energy, energy);
      }
      if optCurrentBucket.Some? {
        InitAndUpdateBucket(optCurrentBucket.value, 0, 0, energy.totalLockedTokens, Surplus(energy));
      }
      hasCurrent := optCurrentBucket.Some?;
    }

    method ReallocateBucketAfterEnergyUpdate(originalPrevEnergy: EnergyEntry, depletedPrevEnergy: EnergyEntry,
                                             currentEnergy: EnergyEntry,
                                             ghost prev: Option<ClaimProgress>) returns (hadPrev: bool,
                                             hasCurrent: bool)
      requires 0 < currentWeek
      requires IsDepleted(prev, currentWeek, originalPrevEnergy, depletedPrevEnergy)
      requires Covered(prev, currentWeek, firstBucketId, lockedTokensInBucket)
      modifies this`lockedTokensInBucket
      ensures Reallocated(old(lockedTokensInBucket), lockedTokensInBucket, firstBucketId, currentWeek, prev,
                          NextProgress(currentWeek, currentEnergy))
      ensures hadPrev <==> LiveTokens(prev, currentWeek) > 0
      ensures hasCurrent <==> LiveTokens(NextProgress(currentWeek, currentEnergy), currentWeek) > 0
    {
      hide Reallocated, LiveTokens, Covered, IsDepleted, NextProgress;
      hadPrev := LeaveBucket(originalPrevEnergy, depletedPrevEnergy, prev);
      ghost var between := lockedTokensInBucket;
      hasCurrent := EnterBucket(currentEnergy);
      ReallocatedTwice(old(lockedTokensInBucket), between, lockedTokensInBucket, firstBucketId, currentWeek, prev,
                       NextProgress(currentWeek, currentEnergy));
    }

    /** One user's energy is replaced in the totals of the current week. */
    method UpdateUserEnergyForCurrentWeek(user: Address, currentEnergy: EnergyEntry)
      requires Valid()
      modifies this`lastGlobalUpdateWeek, this`totalEnergyForWeek, this`totalLockedTokensForWeek,
               this`totalRewardsForWeek, this`firstBucketId, this`lockedTokensInBucket, this`residue
      ensures lastGlobalUpdateWeek == currentWeek
      ensures user in currentClaimProgress ==> 0 < currentClaimProgress[user].week <= currentWeek
      ensures BooksOk(Replaced(currentClaimProgress, user, NextProgress(currentWeek, currentEnergy)))
      ensures SpentOk(totalEnergyForWeek, spent, currentClaimProgress, currentWeek)
      ensures OthersKept(old(totalEnergyForWeek), totalEnergyForWeek, old(lastGlobalUpdateWeek), currentWeek)
      ensures OnlyCleared(old(totalRewardsForWeek), totalRewardsForWeek, old(lastGlobalUpdateWeek), currentWeek)
    {
      hide WeekBooksOk, SpentOk, Reallocated, EnergyAt;
      PerformWeeklyUpdate();
      ghost var prev := Progress(currentClaimProgress, user);
      ghost var next := NextProgress(currentWeek, currentEnergy);
      var original := if user in currentClaimProgress then currentClaimProgress[user].energy else EnergyEntry(0, 0, 0);
      var lastActiveWeek := if user in currentClaimProgress then currentClaimProgress[user].week else 0;
      UserSeen(At(totalEnergyForWeek, currentWeek), At(totalLockedTokensForWeek, currentWeek), lockedTokensInBucket,
               firstBucketId, currentClaimProgress, currentWeek, residue, user);
      var prevEnergy := DepletedEnergy(original, lastActiveWeek, currentWeek, prev);
      ghost var buckets := lockedTokensInBucket;
      var hadPrev, hasCurrent := ReallocateBucketAfterEnergyUpdate(original, prevEnergy, currentEnergy, prev);
      UserUpdated(At(totalEnergyForWeek, currentWeek), At(totalLockedTokensForWeek, currentWeek), buckets,
                  lockedTokensInBucket, firstBucketId, currentClaimProgress, currentWeek, residue, user, next);
      UserAmounts(prev, next, currentWeek, prevEnergy, currentEnergy);
      var totalLocked := At(totalLockedTokensForWeek, currentWeek);
      if hasCurrent {
        totalLocked := totalLocked + currentEnergy.totalLockedTokens;
      }
      if hadPrev {
        totalLocked := totalLocked - prevEnergy.totalLockedTokens;
      }
      var totalEnergy := At(totalEnergyForWeek, currentWeek) - Shown(prevEnergy.amount) + Shown(currentEnergy.amount);
      OnlyCurrent(totalEnergyForWeek, spent, currentClaimProgress, currentWeek, totalEnergy);
      totalLockedTokensForWeek := totalLockedTokensForWeek[currentWeek := totalLocked];
      totalEnergyForWeek := totalEnergyForWeek[currentWeek := totalEnergy];
      residue := residue + ResidueOf(prev, currentWeek);
    }

    method SetProgress(user: Address, energy: EnergyEntry)
      modifies this`currentClaimProgress
      ensures currentClaimProgress == Replaced(old(currentClaimProgress), user, NextProgress(currentWeek, energy))
    {
      if Shown(energy.amount) > 0 {
        currentClaimProgress := currentClaimProgress[user := ClaimProgress(currentWeek, energy)];
      } else {
        currentClaimProgress := currentClaimProgress - {user};
      }
    }

    /** `energy` is the user's entry at the energy factory. Weeks that were not claimed are given up. */
    method UpdateEnergyAndProgress(user: Address, energy: EnergyEntry)
      requires Valid()
      modifies this`lastGlobalUpdateWeek, this`totalEnergyForWeek, this`totalLockedTokensForWeek,
               this`totalRewardsForWeek, this`firstBucketId, this`lockedTokensInBucket, this`residue,
               this`currentClaimProgress
      ensures Valid() && lastGlobalUpdateWeek == currentWeek
      ensures currentClaimProgress == Replaced(old(currentClaimProgress), user, NextProgress(currentWeek, energy))
      ensures OthersKept(old(totalEnergyForWeek), totalEnergyForWeek, old(lastGlobalUpdateWeek), currentWeek)
      ensures OnlyCleared(old(totalRewardsForWeek), totalRewardsForWeek, old(lastGlobalUpdateWeek), currentWeek)
    {
      hide WeekBooksOk, SpentOk, PastKept, OthersKept, OnlyCleared;
      UpdateUserEnergyForCurrentWeek(user, energy);
      KeptAsIs(totalEnergyForWeek, spent, currentClaimProgress, currentWeek);
      UserClaimed(totalEnergyForWeek, totalEnergyForWeek, spent, spent, currentClaimProgress, currentWeek, user,
                  NextProgress(currentWeek, energy), currentWeek);
      SetProgress(user, energy);
    }

    method UpdateEnergyForUser(user: Address, energy: EnergyEntry) returns (ok: bool)
      requires Valid()
      modifies this`lastGlobalUpdateWeek, this`totalEnergyForWeek, this`totalLockedTokensForWeek,
               this`totalRewardsForWeek, this`firstBucketId, this`lockedTokensInBucket, this`residue,
               this`currentClaimProgress
      ensures Valid()
      ensures ok <==> (user in old(currentClaimProgress) ==> old(currentClaimProgress)[user].week == currentWeek)
      ensures currentClaimProgress ==
                if ok then Replaced(old(currentClaimProgress), user, NextProgress(currentWeek, energy))
                else old(currentClaimProgress)
      ensures ok ==> OthersKept(old(totalEnergyForWeek), totalEnergyForWeek, old(lastGlobalUpdateWeek), currentWeek)
      ensures ok ==> OnlyCleared(old(totalRewardsForWeek), totalRewardsForWeek, old(lastGlobalUpdateWeek), currentWeek)
      ensures !ok ==> totalEnergyForWeek == old(totalEnergyForWeek) && totalRewardsForWeek == old(totalRewardsForWeek)
    {
      hide WeekBooksOk, SpentOk, OthersKept, OnlyCleared;
      if user in currentClaimProgress && currentClaimProgress[user].week != currentWeek {
        return false;
      }
      UpdateEnergyAndProgress(user, energy);
      return true;
    }

    /** A user whose position becomes too small no longer counts. */
    method ClearUserEnergy(user: Address, remainingFarmPaymentAmount: nat, minFarmAmount: nat, currentEpoch: Epoch)
      requires Valid()
      modifies this`lastGlobalUpdateWeek, this`totalEnergyForWeek, this`totalLockedTokensForWeek,
               this`totalRewardsForWeek, this`firstBucketId, this`lockedTokensInBucket, this`residue,
               this`currentClaimProgress
      ensures Valid()
      ensures currentClaimProgress ==
                if remainingFarmPaymentAmount >= minFarmAmount then old(currentClaimProgress)
                else old(currentClaimProgress) - {user}
      ensures remainingFarmPaymentAmount < minFarmAmount ==>
                OthersKept(old(totalEnergyForWeek), totalEnergyForWeek, old(lastGlobalUpdateWeek), currentWeek)
      ensures remainingFarmPaymentAmount < minFarmAmount ==>
                OnlyCleared(old(totalRewardsForWeek), totalRewardsForWeek, old(lastGlobalUpdateWeek), currentWeek)
      ensures remainingFarmPaymentAmount >= minFarmAmount ==>
                totalEnergyForWeek == old(totalEnergyForWeek) && totalRewardsForWeek == old(totalRewardsForWeek)
    {
      hide WeekBooksOk, SpentOk, OthersKept, OnlyCleared;
      if remainingFarmPaymentAmount >= minFarmAmount {
        return;
      }
      UpdateEnergyAndProgress(user, EnergyEntry(0, currentEpoch, 0));
    }

    /** The weeks since the last claim, at most four, each with the energy the user showed in it: whatever users claim
        for a week stays within the total it is compared with. */
    method ClaimMulti(user: Address, energy: EnergyEntry) returns (claims: seq<WeekClaim>)
      requires Valid()
      modifies this`lastGlobalUpdateWeek, this`totalEnergyForWeek, this`totalLockedTokensForWeek,
               this`totalRewardsForWeek, this`firstBucketId, this`lockedTokensInBucket, this`residue,
               this`currentClaimProgress, this`spent
      ensures Valid() && lastGlobalUpdateWeek == currentWeek
      ensures currentClaimProgress == Replaced(old(currentClaimProgress), user, NextProgress(currentWeek, energy))
      ensures old(user in currentClaimProgress ==> 0 < currentClaimProgress[user].week <= currentWeek)
      ensures AreClaims(claims, old(Progress(currentClaimProgress, user)), currentWeek, totalEnergyForWeek)
      ensures AreWeeksSince(claims, old(Progress(currentClaimProgress, user)), currentWeek)
      ensures forall w: Week :: At(spent, w) == old(At(spent, w)) +
                  if FirstClaim(old(Progress(currentClaimProgress, user)), currentWeek) <= w < currentWeek
                  then EnergyAt(old(currentClaimProgress)[user], w) else 0
      ensures forall w: Week :: w in totalEnergyForWeek && w < currentWeek ==> At(spent, w) <= totalEnergyForWeek[w]
      ensures OthersKept(old(totalEnergyForWeek), totalEnergyForWeek, old(lastGlobalUpdateWeek), currentWeek)
      ensures OnlyCleared(old(totalRewardsForWeek), totalRewardsForWeek, old(lastGlobalUpdateWeek), currentWeek)
    {
      hide WeekBooksOk, SpentOk, PastKept, EnergyAt, OthersKept, OnlyCleared, AreWeeksSince;
      ghost var prev := Progress(currentClaimProgress, user);
      UpdateUserEnergyForCurrentWeek(user, energy);
      claims := [];
      if user in currentClaimProgress {
        claims := ClaimWeeks(currentClaimProgress[user], currentWeek, totalEnergyForWeek);
      }
      ClaimsCoverWeeks(claims, prev, currentWeek, totalEnergyForWeek);
      ghost var first := FirstClaim(prev, currentWeek);
      ghost var spent' := Spent(spent, prev, first, currentWeek);
      NothingSpentYet(totalEnergyForWeek, spent, currentClaimProgress, currentWeek);
      KeptAsIs(totalEnergyForWeek, spent, currentClaimProgress, currentWeek);
      UserClaimed(totalEnergyForWeek, totalEnergyForWeek, spent, spent', currentClaimProgress, currentWeek, user,
                  NextProgress(currentWeek, energy), first);
      spent := spent';
      SetProgress(user, energy);
      SpentWithin(totalEnergyForWeek, spent, currentClaimProgress, currentWeek);
    }
  }
}
