/** Which entry of a growing log a ring cell holds when nothing stops the writer from lapping. */
module LogRing {
  import opened Modular

  /** The greatest index up to w that falls into the cell of index i. */
  function Latest(w: int, i: int, n: nat): int
    requires n > 0
  {
    w - (w - i) % n
  }

  lemma LatestIsGreatest(w: int, i: int, n: nat)
    requires n > 0
    ensures var k := Latest(w, i, n);
      && w - n < k <= w && k % n == i % n
      && forall x | x <= w && x % n == i % n :: x <= k
  {
    var k, q := Latest(w, i, n), (w - i) / n;
    assert w - i == n * q + (w - i) % n;
    assert k == n * q + i;
    assert i == n * (i / n) + i % n;
    assert k == n * (q + i / n) + i % n;
    DivisionIsUnique(k, n, q + i / n, i % n);
    forall x | x <= w && x % n == i % n
      ensures x <= k
    {
      if x > k {
        SameSlotGap(k, x, n);
      }
    }
  }

  /** Only one index is the greatest. */
  lemma LatestIsUnique(w: int, i: int, n: nat, k: int)
    requires n > 0 && k <= w && k % n == i % n && w < k + n
    ensures Latest(w, i, n) == k
  {
    LatestIsGreatest(w, i, n);
    if k < Latest(w, i, n) {
      SameSlotGap(k, Latest(w, i, n), n);
    }
  }

  /** The cell of index i holds entry i exactly while i is among the last n entries. */
  lemma LatestIsItself(w: int, i: int, n: nat)
    requires n > 0
    ensures Latest(w, i, n) == i <==> w - n < i <= w
  {
    LatestIsGreatest(w, i, n);
    if w - n < i <= w {
      LatestIsUnique(w, i, n, i);
    }
  }

  /** One more entry changes one cell. */
  lemma LatestAfterOneMore(w: int, i: int, n: nat)
    requires n > 0
    ensures Latest(w + 1, i, n) == if i % n == (w + 1) % n then w + 1 else Latest(w, i, n)
  {
    LatestIsGreatest(w, i, n);
    if i % n == (w + 1) % n {
      LatestIsUnique(w + 1, i, n, w + 1);
    } else {
      NextLapSameSlot(w + 1, n);
      assert Latest(w, i, n) != w + 1 - n;
      LatestIsUnique(w + 1, i, n, Latest(w, i, n));
    }
  }
}
