/** Fungible units carrying a number: locked tokens with their unlock epoch, farm tokens with the reward-per-share they
    entered at. A holding is the multiset of the numbers of its units. */
module Units {
  import opened Arith

  /** The sum, over all units, of the unit's number minus `base`. */
  ghost function Worth(m: multiset<nat>, base: nat): int {
    if m == multiset{} then 0 else
      var u :| u in m;
      (u - base) + Worth(m - multiset{u}, base)
  }

  /** A payment of `amount` units that all carry number u. */
  ghost function Pile(amount: nat, u: nat): multiset<nat> {
    multiset{}[u := amount]
  }

  ghost predicate AllAtMost(m: multiset<nat>, bound: int) {
    forall u :: u in m ==> u <= bound
  }

  /** The worth does not depend on the order in which units are taken. */
  lemma {:induction false} WorthTake(m: multiset<nat>, u: nat, base: nat)
    requires u in m
    ensures Worth(m, base) == (u - base) + Worth(m - multiset{u}, base)
    decreases |m|
  {
    var w :| w in m && Worth(m, base) == (w - base) + Worth(m - multiset{w}, base);
    if w != u {
      WorthTake(m - multiset{w}, u, base);
      WorthTake(m - multiset{u}, w, base);
      assert m - multiset{w} - multiset{u} == m - multiset{u} - multiset{w};
    }
  }

  lemma {:induction false} WorthPlus(m: multiset<nat>, n: multiset<nat>, base: nat)
    ensures Worth(m + n, base) == Worth(m, base) + Worth(n, base)
    ensures |m + n| == |m| + |n|
    decreases |n|
  {
    if n == multiset{} {
      assert m + n == m;
    } else {
      var u :| u in n;
      WorthPlus(m, n - multiset{u}, base);
      WorthTake(n, u, base);
      WorthTake(m + n, u, base);
      assert m + n - multiset{u} == m + (n - multiset{u});
    }
  }

  lemma WorthMinus(m: multiset<nat>, n: multiset<nat>, base: nat)
    requires n <= m
    ensures Worth(m - n, base) == Worth(m, base) - Worth(n, base)
    ensures |m - n| == |m| - |n|
  {
    assert m == (m - n) + n;
    WorthPlus(m - n, n, base);
  }

  lemma {:induction false} WorthPile(amount: nat, u: nat, base: nat)
    ensures Worth(Pile(amount, u), base) == amount * (u - base)
    ensures |Pile(amount, u)| == amount
  {
    if amount == 0 {
      assert Pile(amount, u) == multiset{};
    } else {
      WorthPile(amount - 1, u, base);
      WorthTake(Pile(amount, u), u, base);
      assert Pile(amount, u) - multiset{u} == Pile(amount - 1, u);
      MulStep(amount, u - base);
    }
  }

  /** Moving the base by d takes d from every unit. */
  lemma {:induction false} WorthShift(m: multiset<nat>, base: nat, base': nat)
    ensures Worth(m, base') == Worth(m, base) - |m| * (base' - base)
    decreases |m|
  {
    if m == multiset{} {
      assert Worth(m, base') == 0 == Worth(m, base);
    } else {
      var u :| u in m;
      WorthTake(m, u, base);
      WorthTake(m, u, base');
      WorthShift(m - multiset{u}, base, base');
      assert |m - multiset{u}| == |m| - 1;
      MulStep(|m|, base' - base);
    }
  }

  lemma {:induction false} WorthNonPositive(m: multiset<nat>, base: nat)
    requires AllAtMost(m, base)
    ensures Worth(m, base) <= 0
    decreases |m|
  {
    if m != multiset{} {
      var u :| u in m;
      WorthTake(m, u, base);
      WorthNonPositive(m - multiset{u}, base);
    }
  }
}
