/** Facts about tickets that share a ring slot, that is, tickets equal modulo the ring size. */
module Modular {

  /** A product with a positive factor is at least that factor once the other factor is positive. */
  lemma MulAtLeast(n: int, d: int)
    requires n > 0
    ensures d >= 1 ==> n * d >= n
    ensures d <= 0 ==> n * d <= 0
    ensures d <= -1 ==> n * d <= -n
  {
  }

  /** Euclidean division has one quotient and one remainder. */
  lemma DivisionIsUnique(x: int, n: int, q: int, r: int)
    requires n > 0 && 0 <= r < n && x == n * q + r
    ensures x / n == q && x % n == r
  {
    var d := x / n - q;
    assert n * d == r - x % n;
    MulAtLeast(n, d);
  }

  /** The same slot is reached again one lap later and one lap earlier. */
  lemma NextLapSameSlot(k: int, n: int)
    requires n > 0
    ensures (k + n) % n == k % n
    ensures (k - n) % n == k % n
  {
    DivisionIsUnique(k + n, n, k / n + 1, k % n);
    DivisionIsUnique(k - n, n, k / n - 1, k % n);
  }

  /** Two different tickets of one slot are at least a lap apart. */
  lemma SameSlotGap(a: int, b: int, n: int)
    requires n > 0 && a % n == b % n && a < b
    ensures a + n <= b
  {
    var qa, qb, r := a / n, b / n, a % n;
    assert a == n * qa + r && b == n * qb + r;
    assert b - a == n * (qb - qa);
    MulAtLeast(n, qb - qa);
  }

  /** Reducing the start of a cyclic walk first does not change where it goes. */
  lemma ReduceFirst(a: int, b: int, n: int)
    requires n > 0
    ensures (a % n + b) % n == (a + b) % n
  {
    var q, c := a / n, a % n + b;
    assert a + b == n * q + c;
    assert a + b == n * (q + c / n) + c % n;
    DivisionIsUnique(a + b, n, q + c / n, c % n);
  }
}
