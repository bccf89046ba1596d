/** Sizes of finite sets of integers. */
module Counting {

  /** The integers 0, ..., n - 1. */
  function Below(n: nat): (s: set<int>)
    ensures forall k :: k in s <==> 0 <= k < n
    ensures |s| == n
  {
    if n == 0 then {} else Below(n - 1) + {n - 1}
  }

  lemma SubsetSize<T>(a: set<T>, b: set<T>)
    requires a <= b
    ensures |a| <= |b|
    ensures |a| == |b| ==> a == b
  {
    assert b == a + (b - a);
  }

  lemma SplitSize(a: set<int>, b: set<int>)
    requires b <= a
    ensures |a - b| == |a| - |b|
  {
    assert a == b + (a - b);
  }

  lemma Pick<T>(a: set<T>) returns (x: T)
    requires a != {}
    ensures x in a
  {
    x :| x in a;
  }

  function Image(a: set<int>, f: int -> int): set<int> {
    set x | x in a :: f(x)
  }

  lemma {:induction false} ImageAtMost(a: set<int>, f: int -> int)
    ensures |Image(a, f)| <= |a|
  {
    if a != {} {
      var x0 := Pick(a);
      var rest := a - {x0};
      ImageAtMost(rest, f);
      assert Image(a, f) == Image(rest, f) + {f(x0)};
    }
  }

  /** An injective image has as many elements. */
  lemma {:induction false} ImageSize(a: set<int>, f: int -> int)
    requires forall x, y | x in a && y in a && f(x) == f(y) :: x == y
    ensures |Image(a, f)| == |a|
  {
    if a != {} {
      var x0 := Pick(a);
      var rest := a - {x0};
      ImageSize(rest, f);
      assert Image(a, f) == Image(rest, f) + {f(x0)};
      assert f(x0) !in Image(rest, f);
    }
  }
}
