/** Constructions and destructions: each object is destroyed exactly once, by its reader or by the destructor. */
module MpmcLifetime {
  import opened MpmcModel
  import opened MpmcInvariant
  import opened MpmcSafety

  /** What the destructor's loop destroys in the first i cells: the data of those whose word is negative. */
  function Sweep<T>(g: Ring<T>, i: nat): multiset<int>
    requires g.Shaped() && i <= |g.stat|
  {
    if i == 0 then multiset{}
    else Sweep(g, i - 1) + if g.stat[i - 1] < 0 then ObjectIds(g.data[i - 1]) else multiset{}
  }

  lemma SweepStart<T>(g: Ring<T>)
    requires g.Shaped()
    ensures Sweep(g, 0) == multiset{}
  {
  }

  lemma SweepNext<T>(g: Ring<T>, i: nat)
    requires g.Shaped() && i < |g.stat|
    ensures Sweep(g, i + 1) == Sweep(g, i) + if g.stat[i] < 0 then ObjectIds(g.data[i]) else multiset{}
  {
  }

  /** No thread is between a successful getWritable or getReadable and its commit. */
  ghost predicate NobodyInside<T>(s: State<T>) {
    forall t | t in s.pcs :: s.pcs[t].Holding? ==> s.pcs[t].stage.Checking?
  }

  lemma AtRest<T>(s: State<T>, j: nat)
    requires Inv(s) && NobodyInside(s) && j < s.N()
    ensures s.ring.stat[j] >= 0 ==> s.ring.data[j] == Raw
    ensures s.ring.stat[j] < 0 ==>
      var k := Tag(s.ring.stat[j]); k in s.pushed && s.ring.data[j] == Live(s.pushed[k], k)
  {
    assert CellOk(s, j);
  }

  /** What the sweep finds in cell j. */
  lemma CellSweep<T>(s: State<T>, j: nat, k: int)
    requires Inv(s) && NobodyInside(s) && j < s.N()
    ensures (if s.ring.stat[j] < 0 then ObjectIds(s.ring.data[j]) else multiset{})[k]
         == if s.ring.Slot(k) == j && s.ring.data[j].IsObject(k) then 1 else 0
  {
    AtRest(s, j);
    assert Tag(s.ring.stat[j]) % s.N() == j;
  }

  lemma {:induction false} SweepCounts<T>(s: State<T>, i: nat, k: int)
    requires s.WellFormed() && Inv(s) && NobodyInside(s) && i <= s.N()
    ensures Sweep(s.ring, i)[k] == if s.ring.Slot(k) < i && s.ring.data[s.ring.Slot(k)].IsObject(k) then 1 else 0
  {
    hide Inv, NobodyInside;
    if i > 0 {
      SweepCounts(s, i - 1, k);
      CellSweep(s, i - 1, k);
    }
  }

  /**
   Over any run followed by the destructor, with nobody inside a cell, every constructed object has been
   destroyed exactly once. The destructor destroys only live objects and leaves none behind.
  */
  lemma EveryObjectDestroyedOnce<T(!new)>(s: State<T>)
    requires Reachable(s) && s.WellFormed() && NobodyInside(s)
    ensures s.freed + Sweep(s.ring, s.N()) == s.built
    ensures forall k :: s.built[k] <= 1
    ensures forall j | 0 <= j < s.N() :: s.ring.stat[j] < 0 <==> s.ring.data[j] != Raw
    ensures forall j | 0 <= j < s.N() :: s.ring.data[j].Live? || s.ring.data[j].Raw?
  {
    ReachableInv(s);
    forall k
      ensures (s.freed + Sweep(s.ring, s.N()))[k] == s.built[k] <= 1
    {
      assert LifeOk(s, k);
      SweepCounts(s, s.N(), k);
    }
    forall j | 0 <= j < s.N()
      ensures s.ring.stat[j] < 0 <==> s.ring.data[j] != Raw
      ensures s.ring.data[j].Live? || s.ring.data[j].Raw?
    {
      AtRest(s, j);
    }
  }

  /** In every reachable state an object is built at most once and destroyed at most once, and not before. */
  lemma NeverDestroyedTwice<T(!new)>(s: State<T>, k: int)
    requires Reachable(s)
    ensures s.freed[k] <= s.built[k] <= 1
  {
    ReachableInv(s);
    assert LifeOk(s, k);
  }
}
