/** How many threads the thread table serves: exactly as many as it has entries. */
module MpmcCapacity {
  import opened MpmcModel
  import opened MpmcSafety
  import opened MpmcRuns
  import opened MpmcThreads
  import opened MpmcSolo
  import opened Counting

  /** The state is reached by a run in which only threads of the set make try calls. */
  ghost predicate ReachedBy<T(!new)>(s: State<T>, size: nat, thrSize: nat, ids: set<int>)
    requires size > 0 && thrSize > 0
  {
    exists moves: seq<Move<T>> :: TriedBy(moves, ids) && s == Run(Initial(size, thrSize), moves)
  }

  lemma ReachedByIsReachable<T(!new)>(s: State<T>, size: nat, thrSize: nat, ids: set<int>)
    requires size > 0 && thrSize > 0 && ReachedBy(s, size, thrSize, ids)
    ensures Reachable(s) && s.WellFormed() && s.M() == thrSize
  {
    var moves: seq<Move<T>> :| TriedBy(moves, ids) && s == Run(Initial(size, thrSize), moves);
  }

  lemma ReachFurther<T(!new)>(s: State<T>, more: seq<Move<T>>, size: nat, thrSize: nat, ids: set<int>)
    requires size > 0 && thrSize > 0 && ReachedBy(s, size, thrSize, ids) && s.WellFormed() && TriedBy(more, ids)
    ensures ReachedBy(Run(s, more), size, thrSize, ids)
  {
    hide Run;
    var moves: seq<Move<T>> :| TriedBy(moves, ids) && s == Run(Initial(size, thrSize), moves);
    RunInTwo(Initial(size, thrSize), moves, more);
    assert TriedBy(moves + more, ids);
  }

  lemma ReachNext<T(!new)>(s: State<T>, mv: Move<T>, size: nat, thrSize: nat, ids: set<int>)
    requires size > 0 && thrSize > 0 && ReachedBy(s, size, thrSize, ids) && s.WellFormed() && TriedBy([mv], ids)
    ensures ReachedBy(Next(s, mv), size, thrSize, ids)
  {
    hide Next;
    ReachFurther(s, [mv], size, thrSize, ids);
    assert [mv][..0] == [];
    assert Run(s, [mv]) == Next(s, mv);
  }

  function FreeEntries<T>(s: State<T>): set<int> {
    set c | c in Below(s.M()) && s.ring.tids[c] == 0
  }

  /** More threads than entries: one of them has none. */
  lemma Outsider<T>(s: State<T>, ids: set<int>) returns (t: nat)
    requires |ids| > s.M() && forall x | x in ids :: x > 0
    ensures t in ids && t !in s.ring.tids
  {
    var f: int -> int := c => if 0 <= c < s.M() then s.ring.tids[c] else 0;
    var entries := Image(Below(s.M()), f);
    ImageAtMost(Below(s.M()), f);
    if ids <= entries {
      SubsetSize(ids, entries);
    }
    t := Pick(ids - entries);
    forall c | 0 <= c < s.M()
      ensures s.ring.tids[c] != t
    {
      assert f(c) in entries;
    }
  }

  /** An uninterrupted tryVisitPop of a thread without an entry takes a free one. */
  lemma TakesEntry<T(!new)>(s: State<T>, size: nat, thrSize: nat, ids: set<int>, t: nat) returns (s': State<T>)
    requires size > 0 && thrSize > 0 && ReachedBy(s, size, thrSize, ids) && s.WellFormed()
    requires t in ids && t != 0 && t !in s.ring.tids && FreeEntries(s) != {}
    requires forall u: nat | u in ids :: s.PcOf(u).Idle?
    ensures ReachedBy(s', size, thrSize, ids) && s'.WellFormed()
    ensures FreeEntries(s') < FreeEntries(s)
    ensures forall u: nat | u in ids :: s'.PcOf(u).Idle?
  {
    hide Run, Reachable, ReachedBy;
    ReachedByIsReachable(s, size, thrSize, ids);
    var free := Pick(FreeEntries(s));
    NullExactlyWhenFull(s.ring, t);
    var c := EntryOf(s.ring, t);
    assert c in FreeEntries(s);
    s' := TryPopIsRun(s, t);
    assert s'.ring.tids == s.ring.tids[c := t];
    var n: nat :| s' == Run(s, SoloCall(t, Pop, n));
    ReachFurther(s, SoloCall(t, Pop, n), size, thrSize, ids);
    forall u: nat | u in ids
      ensures s'.PcOf(u).Idle?
    {
      if u != t {
        AloneKeepsOthers(s, s', t, Pop, u);
      }
    }
    assert c !in FreeEntries(s');
  }

  /** With more threads than entries the table can be filled up, leaving one of them out. */
  lemma {:induction false} FillsUp<T(!new)>(s: State<T>, size: nat, thrSize: nat, ids: set<int>)
    returns (s': State<T>, t: nat)
    requires size > 0 && thrSize > 0 && ReachedBy(s, size, thrSize, ids)
    requires |ids| > thrSize && forall x | x in ids :: x > 0
    requires forall u: nat | u in ids :: s.PcOf(u).Idle?
    ensures ReachedBy(s', size, thrSize, ids) && t in ids && t != 0 && s'.PcOf(t).Idle? && FullForOthers(s', t)
    decreases |FreeEntries(s)|
  {
    hide ReachedBy, Reachable;
    ReachedByIsReachable(s, size, thrSize, ids);
    t := Outsider(s, ids);
    if FreeEntries(s) == {} {
      s' := s;
      forall c | 0 <= c < s.M()
        ensures s.ring.tids[c] != 0 && s.ring.tids[c] != t
      {
        assert c !in FreeEntries(s);
      }
    } else {
      var s1 := TakesEntry(s, size, thrSize, ids, t);
      SubsetSize(FreeEntries(s1), FreeEntries(s));
      s', t := FillsUp(s1, size, thrSize, ids);
    }
  }

  /** With a table full of others the probe loop runs out of attempts. */
  lemma {:induction false} RunsOut<T(!new)>(s: State<T>, size: nat, thrSize: nat, ids: set<int>, t: nat)
    returns (s': State<T>)
    requires size > 0 && thrSize > 0 && ReachedBy(s, size, thrSize, ids) && s.WellFormed()
    requires t != 0 && s.PcOf(t).Probing? && FullForOthers(s, t)
    ensures ReachedBy(s', size, thrSize, ids) && GetsNull(s', t)
    decreases s.PcOf(t).cnt
  {
    hide ReachedBy;
    if s.PcOf(t).cnt == 0 {
      s' := s;
    } else {
      ReachNext(s, Go(t), size, thrSize, ids);
      assert Next(s, Go(t)) == StepProbe(s, t);
      s' := RunsOut(StepProbe(s, t), size, thrSize, ids, t);
    }
  }

  lemma TooManyThreads<T(!new)>(size: nat, thrSize: nat, ids: set<int>) returns (s: State<T>, t: nat)
    requires size > 0 && thrSize > 0 && |ids| > thrSize && forall x | x in ids :: x > 0
    ensures ReachedBy(s, size, thrSize, ids) && GetsNull(s, t)
  {
    hide FullForOthers;
    s := Initial(size, thrSize);
    assert TriedBy<T>([], ids) && s == Run(Initial(size, thrSize), []);
    s, t := FillsUp(s, size, thrSize, ids);
    ReachedByIsReachable(s, size, thrSize, ids);
    var full := s;
    var call := Call(t, Pop, false);
    ReachNext(s, call, size, thrSize, ids);
    s := Next(s, call);
    assert FullForOthers(s, t) by { SameEntries(full, s, t); }
    s := RunsOut(s, size, thrSize, ids, t);
  }

  lemma SameEntries<T>(s: State<T>, s': State<T>, t: nat)
    requires FullForOthers(s, t) && s'.ring.tids == s.ring.tids
    ensures FullForOthers(s', t)
  {
  }

  /**
   The table is large enough for a set of threads, in every run in which only they make try calls and any
   number of others make blocking ones, exactly if it has an entry for each of them.
  */
  lemma EnoughExactlyWhen<T(!new)>(size: nat, thrSize: nat, ids: set<int>)
    requires size > 0 && thrSize > 0 && forall x | x in ids :: x > 0
    ensures (forall s: State<T>, t: nat | ReachedBy(s, size, thrSize, ids) :: !GetsNull(s, t)) <==> |ids| <= thrSize
  {
    if |ids| <= thrSize {
      forall s: State<T>, t: nat | ReachedBy(s, size, thrSize, ids)
        ensures !GetsNull(s, t)
      {
        var moves: seq<Move<T>> :| TriedBy(moves, ids) && s == Run(Initial(size, thrSize), moves);
        EnoughEntries(size, thrSize, moves, ids, t);
      }
    } else {
      var s: State<T>, t := TooManyThreads(size, thrSize, ids);
    }
  }
}
