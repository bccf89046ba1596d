/**
 Endless runs. If every thread goes on taking steps and no more tickets are drawn, commits come to an end,
 and from then on nobody who is still in a call could be let into a cell.
*/
module MpmcLiveness {
  import opened MpmcModel
  import opened MpmcInvariant
  import opened MpmcSafety
  import opened MpmcTheorems
  import opened MpmcRuns
  import opened MpmcThreads
  import opened MpmcProgress

  /** The state after n moves of an endless schedule. */
  function Later<T(==)>(s: State<T>, f: nat -> Move<T>, n: nat): (r: State<T>)
    requires s.WellFormed()
    ensures Keeps(s, r)
  {
    if n == 0 then s else Next(Later(s, f, n - 1), f(n - 1))
  }

  function EventAt<T(==)>(s: State<T>, f: nat -> Move<T>, n: nat): Event
    requires s.WellFormed()
  {
    EventOf(Later(s, f, n), f(n))
  }

  ghost predicate GoesAfter<T(!new)>(f: nat -> Move<T>, t: nat, n: nat) {
    exists m: nat :: n <= m && f(m) == Go(t)
  }

  /** No thread stops taking steps. */
  ghost predicate Fair<T(!new)>(f: nat -> Move<T>) {
    forall t: nat, n: nat | t != 0 :: GoesAfter(f, t, n)
  }

  ghost predicate NoDraws<T(!new)>(s: State<T>, f: nat -> Move<T>, from: nat)
    requires s.WellFormed()
  {
    forall n: nat | n >= from :: !EventAt(s, f, n).Draws?
  }

  ghost predicate NoCommits<T(!new)>(s: State<T>, f: nat -> Move<T>, from: nat)
    requires s.WellFormed()
  {
    forall n: nat | n >= from :: !EventAt(s, f, n).Commits?
  }

  lemma {:induction false} LaterInv<T>(s: State<T>, f: nat -> Move<T>, n: nat)
    requires s.WellFormed() && Inv(s)
    ensures Inv(Later(s, f, n))
  {
    hide Next, Inv;
    if n > 0 {
      LaterInv(s, f, n - 1);
      NextKeepsInv(Later(s, f, n - 1), f(n - 1));
    }
  }

  function First<T>(f: nat -> Move<T>, n: nat): seq<Move<T>> {
    seq(n, i requires 0 <= i < n => f(i))
  }

  lemma {:induction false} LaterIsRun<T>(s: State<T>, f: nat -> Move<T>, n: nat)
    requires s.WellFormed()
    ensures Later(s, f, n) == Run(s, First(f, n))
  {
    hide Next;
    if n > 0 {
      LaterIsRun(s, f, n - 1);
      assert First(f, n)[..n - 1] == First(f, n - 1);
    }
  }

  lemma LaterIsReachable<T(!new)>(s: State<T>, f: nat -> Move<T>, n: nat)
    requires Reachable(s) && s.WellFormed()
    ensures Reachable(Later(s, f, n))
  {
    RunIsReachable(s, First(f, n));
    LaterIsRun(s, f, n);
  }

  lemma {:induction false} LaterGrows<T>(s: State<T>, f: nat -> Move<T>, n: nat, m: nat)
    requires s.WellFormed() && Inv(s) && n <= m
    ensures Grows(Later(s, f, n), Later(s, f, m))
    decreases m
  {
    hide Next, Inv;
    if n < m {
      LaterGrows(s, f, n, m - 1);
      LaterInv(s, f, m - 1);
      NextGrows(Later(s, f, m - 1), f(m - 1));
    }
  }

  lemma {:induction false} CommittedStays<T>(s: State<T>, f: nat -> Move<T>, n: nat, m: nat, side: Side, k: int)
    requires s.WellFormed() && Inv(s) && n <= m && k in Later(s, f, n).Committed(side)
    ensures k in Later(s, f, m).Committed(side)
  {
    hide Next, Inv;
    LaterGrows(s, f, n, m);
  }

  /** A stretch without commits commits nothing. */
  lemma {:induction false} NothingCommitted<T(!new)>(s: State<T>, f: nat -> Move<T>, n: nat, m: nat, side: Side)
    requires s.WellFormed() && Inv(s) && n <= m && NoCommits(s, f, n)
    ensures Later(s, f, m).Committed(side) == Later(s, f, n).Committed(side)
    decreases m
  {
    hide Next, Inv, EventOf;
    if n < m {
      NothingCommitted(s, f, n, m - 1, side);
      assert !EventAt(s, f, m - 1).Commits?;
      NextAccounted(Later(s, f, m - 1), f(m - 1));
    }
  }

  // A ticket that has been granted, and is in the hands of a call, is committed.

  lemma OneStepOn<T>(s: State<T>, f: nat -> Move<T>, m: nat, t: nat, side: Side, k: nat)
    requires s.WellFormed() && Inv(s) && t != 0 && OnItsWay(Later(s, f, m), t, side, k)
    ensures var before, after := Later(s, f, m), Later(s, f, m + 1);
      || k in after.Committed(side)
      || (OnItsWay(after, t, side, k)
          && StepsLeft(after.PcOf(t)) + (if f(m) == Go(t) then 1 else 0) <= StepsLeft(before.PcOf(t)))
  {
    hide Next, Inv, OnItsWay;
    LaterInv(s, f, m);
    NextOnItsWay(Later(s, f, m), f(m), t, side, k);
  }

  /** Whatever the others do, the holder of a granted ticket only gets nearer to its commit. */
  lemma {:induction false} StaysOnItsWay<T>(s: State<T>, f: nat -> Move<T>, n: nat, m: nat, t: nat, side: Side, k: nat)
    requires s.WellFormed() && Inv(s) && t != 0 && n <= m && OnItsWay(Later(s, f, n), t, side, k)
    ensures var before, after := Later(s, f, n), Later(s, f, m);
      || k in after.Committed(side)
      || (OnItsWay(after, t, side, k) && StepsLeft(after.PcOf(t)) <= StepsLeft(before.PcOf(t)))
    decreases m
  {
    hide Next, Inv, OnItsWay;
    if n < m {
      StaysOnItsWay(s, f, n, m - 1, t, side, k);
      if k in Later(s, f, m - 1).Committed(side) {
        CommittedStays(s, f, m - 1, m, side, k);
      } else {
        OneStepOn(s, f, m - 1, t, side, k);
      }
    }
  }

  /** With fair scheduling it gets there. */
  lemma {:induction false} Arrives<T(!new)>(s: State<T>, f: nat -> Move<T>, n: nat, t: nat, side: Side, k: nat)
    returns (end: nat)
    requires s.WellFormed() && Inv(s) && t != 0 && Fair(f) && OnItsWay(Later(s, f, n), t, side, k)
    ensures end >= n && k in Later(s, f, end).Committed(side)
    decreases StepsLeft(Later(s, f, n).PcOf(t))
  {
    hide Next, Inv, OnItsWay;
    assert GoesAfter(f, t, n);
    var m: nat :| n <= m && f(m) == Go(t);
    StaysOnItsWay(s, f, n, m, t, side, k);
    if k in Later(s, f, m).Committed(side) {
      end := m;
    } else {
      OneStepOn(s, f, m, t, side, k);
      if k in Later(s, f, m + 1).Committed(side) {
        end := m + 1;
      } else {
        end := Arrives(s, f, m + 1, t, side, k);
      }
    }
  }

  /** A cell that grants a ticket goes on granting it until the ticket is committed. */
  lemma {:induction false} LaterGrants<T>(s: State<T>, f: nat -> Move<T>, n: nat, m: nat, side: Side, k: nat)
    requires s.WellFormed() && Inv(s) && n <= m && Later(s, f, n).ring.Grants(side, k)
    ensures Later(s, f, m).ring.Grants(side, k) || k in Later(s, f, m).Committed(side)
    decreases m
  {
    hide Next, Inv, EventOf;
    if n < m {
      LaterGrants(s, f, n, m - 1, side, k);
      var before := Later(s, f, m - 1);
      LaterInv(s, f, m - 1);
      if k in before.Committed(side) {
        CommittedStays(s, f, m - 1, m, side, k);
      } else {
        NextKeepsGrant(before, f(m - 1), side, k);
        EventShows(before, f(m - 1));
      }
    }
  }

  /** Some thread is in a call with ticket k in hand. */
  ghost predicate InHand<T(!new)>(s: State<T>, side: Side, k: int) {
    exists t :: t in s.pcs && s.pcs[t].Holding? && s.pcs[t].want.Side() == side && s.pcs[t].idx == k
  }

  lemma InHandIsOpen<T(!new)>(s: State<T>, side: Side, k: int)
    requires Inv(s) && InHand(s, side, k)
    ensures k >= 0 && k !in s.Committed(side)
  {
    var t :| t in s.pcs && s.pcs[t].Holding? && s.pcs[t].want.Side() == side && s.pcs[t].idx == k;
    assert ThreadTicketOk(s, side, t);
  }

  /** The ticket that is held after n moves is in the hands of a call then or later. */
  ghost predicate TakenUp<T(!new)>(s: State<T>, f: nat -> Move<T>, n: nat, side: Side, k: int)
    requires s.WellFormed()
  {
    exists m: nat :: n <= m && InHand(Later(s, f, m), side, k)
  }

  /** Whoever has kept a ticket tries again. */
  ghost predicate AllTakenUp<T(!new)>(s: State<T>, f: nat -> Move<T>, n: nat)
    requires s.WellFormed()
  {
    forall side, k | k in HeldTickets(Later(s, f, n), side) :: TakenUp(s, f, n, side, k)
  }

  /** Nobody in a call has a ticket that its cell would grant. */
  ghost predicate Settled<T>(s: State<T>)
    requires s.WellFormed()
  {
    forall t | t in s.pcs && s.pcs[t].Holding? :: !s.ring.Grants(s.pcs[t].want.Side(), s.pcs[t].idx)
  }

  lemma NoCommitsMeansSettled<T(!new)>(s: State<T>, f: nat -> Move<T>, n: nat)
    requires s.WellFormed() && Inv(s) && Fair(f) && NoCommits(s, f, n)
    ensures Settled(Later(s, f, n))
  {
    hide Next, Run, EventOf;
    LaterInv(s, f, n);
    var r := Later(s, f, n);
    forall t | t in r.pcs && r.pcs[t].Holding?
      ensures !r.ring.Grants(r.pcs[t].want.Side(), r.pcs[t].idx)
    {
      var side, k := r.pcs[t].want.Side(), r.pcs[t].idx;
      assert ThreadTicketOk(r, side, t);
      if r.ring.Grants(side, k) {
        var end := Arrives(s, f, n, t, side, k);
        NothingCommitted(s, f, n, end, side);
      }
    }
  }

  // Commits come to an end.

  lemma OneMoveOn<T>(s: State<T>, f: nat -> Move<T>, m: nat)
    requires s.WellFormed() && Inv(s) && !EventAt(s, f, m).Draws?
    ensures Outstanding(Later(s, f, m)) >= 0
    ensures Outstanding(Later(s, f, m + 1)) == Outstanding(Later(s, f, m)) - if EventAt(s, f, m).Commits? then 1 else 0
  {
    hide Next, Inv, EventOf, Outstanding;
    LaterInv(s, f, m);
    OutstandingIsHeld(Later(s, f, m));
    NextOutstanding(Later(s, f, m), f(m));
  }

  /** Without draws the tickets outstanding never get more. */
  lemma {:induction false} OutstandingFalls<T(!new)>(s: State<T>, f: nat -> Move<T>, n: nat, m: nat)
    requires s.WellFormed() && Inv(s) && n <= m && NoDraws(s, f, n)
    ensures Outstanding(Later(s, f, m)) <= Outstanding(Later(s, f, n))
    decreases m
  {
    hide Next, Inv, EventOf, Outstanding;
    if n < m {
      OutstandingFalls(s, f, n, m - 1);
      OneMoveOn(s, f, m - 1);
    }
  }

  lemma {:induction false} LastCommit<T(!new)>(s: State<T>, f: nat -> Move<T>, from: nat) returns (last: nat)
    requires s.WellFormed() && Inv(s) && NoDraws(s, f, from)
    ensures from <= last && NoCommits(s, f, last)
    decreases Outstanding(Later(s, f, from))
  {
    hide Next, Inv, EventOf, Outstanding;
    if n: nat :| n >= from && EventAt(s, f, n).Commits? {
      OutstandingFalls(s, f, from, n);
      OneMoveOn(s, f, n);
      OneMoveOn(s, f, n + 1);
      OneMoveOn(s, f, from);
      last := LastCommit(s, f, n + 1);
    } else {
      last := from;
    }
  }

  /** A ticket that a call takes up sooner or later is not one that could be granted now. */
  lemma TakenUpIsBlocked<T(!new)>(s: State<T>, f: nat -> Move<T>, n: nat, side: Side, k: int)
    requires s.WellFormed() && Inv(s) && Fair(f) && NoCommits(s, f, n) && TakenUp(s, f, n, side, k)
    ensures !Later(s, f, n).ring.Grants(side, k)
  {
    hide Next, Inv, EventOf;
    var m: nat :| n <= m && InHand(Later(s, f, m), side, k);
    LaterInv(s, f, m);
    InHandIsOpen(Later(s, f, m), side, k);
    assert NoCommits(s, f, m);
    NoCommitsMeansSettled(s, f, m);
    if Later(s, f, n).ring.Grants(side, k) {
      LaterGrants(s, f, n, m, side, k);
    }
  }

  /**
   In an endless run in which every thread goes on taking steps and from some point on no ticket is drawn,
   there is a point from which on nothing is committed and nobody in a call could be let in. If whoever has
   kept a ticket tries again, then from that point on only writers at readIdx + SIZE or beyond are left, or
   only readers at writeIdx or beyond, or nobody.
  */
  lemma CommitsComeToAnEnd<T(!new)>(s: State<T>, f: nat -> Move<T>, from: nat) returns (last: nat)
    requires Reachable(s) && s.WellFormed() && Fair(f) && NoDraws(s, f, from)
    ensures from <= last && NoCommits(s, f, last)
    ensures forall n: nat | n >= last :: Settled(Later(s, f, n))
    ensures forall n: nat | n >= last && AllTakenUp(s, f, n) ::
              OnlyBlockedWriters(Later(s, f, n)) || OnlyBlockedReaders(Later(s, f, n))
  {
    hide Next, Reachable, Inv, EventOf, OnlyBlockedReaders, OnlyBlockedWriters, Settled;
    ReachableInv(s);
    last := LastCommit(s, f, from);
    forall n: nat | n >= last
      ensures Settled(Later(s, f, n))
      ensures AllTakenUp(s, f, n) ==>
                OnlyBlockedWriters(Later(s, f, n)) || OnlyBlockedReaders(Later(s, f, n))
    {
      assert NoCommits(s, f, n);
      NoCommitsMeansSettled(s, f, n);
      if AllTakenUp(s, f, n) {
        LaterIsReachable(s, f, n);
        forall side, k
          ensures !CanProceed(Later(s, f, n), side, k)
        {
          if k in HeldTickets(Later(s, f, n), side) {
            TakenUpIsBlocked(s, f, n, side, k);
          }
        }
        StuckExactlyWhen(Later(s, f, n));
      }
    }
  }

  /** In particular if nobody has left a call and kept a ticket, as when all calls are blocking. */
  lemma InCallsIsTakenUp<T(!new)>(s: State<T>, f: nat -> Move<T>, n: nat)
    requires s.WellFormed()
    requires forall side, k | k in HeldTickets(Later(s, f, n), side) :: InHand(Later(s, f, n), side, k)
    ensures AllTakenUp(s, f, n)
  {
  }
}
