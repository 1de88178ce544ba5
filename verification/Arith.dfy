/** Outcome of an endpoint: a value, or the revert that leaves storage untouched. */
module Wrappers {
  datatype Result<+T> = Success(value: T) | Failure

  datatype Option<+T> = None | Some(value: T)
}

/** Floor arithmetic, said without dividing where a proof can do without. */
module Arith {
  /** q is the floor of n / d, said without dividing. */
  ghost predicate IsFloor(q: int, n: int, d: int) {
    q * d <= n < (q + 1) * d
  }

  lemma FloorOf(n: int, d: int)
    requires d > 0
    ensures IsFloor(n / d, n, d)
  {
  }

  lemma MulLe(a: int, b: int, c: int)
    requires a <= b && 0 <= c
    ensures a * c <= b * c
  {
  }

  lemma MulLt(a: int, b: int, c: int)
    requires a < b && 0 < c
    ensures a * c < b * c
  {
  }

  lemma LeOfMul(a: int, b: int, c: int)
    requires a * c <= b * c && 0 < c
    ensures a <= b
  {
    if b < a {
      MulLt(b, a, c);
    }
  }

  lemma LtOfMul(a: int, b: int, c: int)
    requires a * c < b * c && 0 < c
    ensures a < b
  {
    if b <= a {
      MulLe(b, a, c);
    }
  }

  /** A floor is the greatest q with q * d <= n. */
  lemma FloorGreatest(q: int, n: int, d: int)
    requires d > 0
    ensures q <= n / d <==> q * d <= n
  {
    FloorOf(n, d);
    if q <= n / d {
      MulLe(q, n / d, d);
    } else {
      MulLe(n / d + 1, q, d);
    }
  }

  lemma FloorExact(q: int, n: int, d: int)
    requires d > 0 && IsFloor(q, n, d)
    ensures n / d == q
  {
    FloorGreatest(q, n, d);
    FloorGreatest(q + 1, n, d);
  }

  lemma FloorMonotone(m: int, n: int, d: int)
    requires d > 0 && m <= n
    ensures m / d <= n / d
  {
    FloorOf(m, d);
    FloorGreatest(m / d, n, d);
  }

  lemma FloorNat(n: int, d: int)
    requires 0 <= n && 0 < d
    ensures 0 <= n / d
  {
    FloorGreatest(0, n, d);
  }

  lemma MulStep(n: int, k: int)
    ensures n * k == (n - 1) * k + k
  {
  }

  lemma MulDistributes(a: int, b: int, c: int)
    ensures (a + b) * c == a * c + b * c
  {
  }

  lemma MulNat(a: int, b: int)
    requires 0 <= a && 0 <= b
    ensures 0 <= a * b
  {
  }
}
