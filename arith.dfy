/** Facts about integer division and multiplication that the non-linear
    reasoning of the solver does not find unaided. */
module Arith {

  /** The quotient and remainder of `a` by `n` are the unique `q`, `r` with
      `a == q * n + r` and `0 <= r < n`. */
  lemma DivUnique(a: nat, n: nat, q: nat, r: nat)
    requires n > 0 && a == q * n + r && r < n
    ensures a / n == q && a % n == r
  {
    var q', r' := a / n, a % n;
    assert q' * n + r' == q * n + r;
    if q' < q {
      var d := q - q';
      assert q * n == q' * n + d * n;
      AtLeastOnce(d, n);
      assert false;
    } else if q' > q {
      var d := q' - q;
      assert q' * n == q * n + d * n;
      AtLeastOnce(d, n);
      assert false;
    }
  }

  lemma AtLeastOnce(d: nat, n: nat)
    requires d >= 1
    ensures d * n >= n
  {
    assert d * n == (d - 1) * n + n;
  }

  lemma DivPlusOne(a: nat, n: nat)
    requires n > 0
    ensures (a + n) / n == a / n + 1
  {
    var q, r := a / n, a % n;
    assert a == q * n + r && 0 <= r < n;
    assert a + n == (q + 1) * n + r;
    DivUnique(a + n, n, q + 1, r);
  }

  lemma DivAtMost(a: nat, k: nat, c: nat)
    requires k > 0 && a <= c * k
    ensures a / k <= c
  {
    assert (a / k) * k <= a;
    assert (a / k) * k < (c + 1) * k;
    MulMonotone(a / k, c + 1, k);
  }

  lemma MulMonotone(x: nat, y: nat, k: nat)
    requires k > 0 && x * k < y * k
    ensures x < y
  {
  }

  /** A multiple of `n` leaves no remainder. */
  lemma MultipleMod(q: nat, n: nat)
    requires n > 0
    ensures (q * n) % n == 0 && (q * n) / n == q
  {
    DivUnique(q * n, n, q, 0);
  }

  /** Counting up by one modulo `m`. */
  lemma ModSucc(a: nat, m: nat)
    requires m > 0
    ensures (a + 1) % m == if a % m == m - 1 then 0 else a % m + 1
  {
    var q, r := a / m, a % m;
    assert a == q * m + r;
    if r == m - 1 {
      assert a + 1 == (q + 1) * m + 0;
      DivUnique(a + 1, m, q + 1, 0);
    } else {
      DivUnique(a + 1, m, q, r + 1);
    }
  }

  /** A position before `count` chunks of `n` lies in chunk `a / n`, and
      the rest of that chunk ends within the `count` chunks. */
  lemma ChunkEnd(a: nat, n: nat, count: nat)
    requires n > 0 && a < n * count
    ensures a / n < count && a + (n - a % n) <= n * count
  {
    var q, r := a / n, a % n;
    assert a == q * n + r;
    MulMonotone(q, count, n);
    assert a + (n - r) == (q + 1) * n;
    assert n * count == (q + 1) * n + (count - (q + 1)) * n;
  }
}
