/** Who can proceed, when nobody can, and why a ticket whose turn has come is always committed. */
module MpmcProgress {
  import opened MpmcModel
  import opened MpmcInvariant
  import opened MpmcSafety
  import opened MpmcCells
  import opened MpmcTheorems
  import opened MpmcRuns
  import opened MpmcThreads
  import opened Modular
  import opened Counting

  /** Ticket k is held and its cell lets its holder in. */
  ghost predicate CanProceed<T>(s: State<T>, side: Side, k: int)
    requires s.WellFormed()
  {
    k in HeldTickets(s, side) && s.ring.Grants(side, k)
  }

  ghost predicate Open<T>(s: State<T>, side: Side, k: int)
    requires s.WellFormed()
  {
    0 <= k < s.ring.Counter(side) && k !in s.Committed(side)
  }

  lemma HeldIsOpen<T>(s: State<T>, side: Side, k: int)
    requires Inv(s)
    ensures k in HeldTickets(s, side) <==> Open(s, side, k)
  {
    HeldOrCommitted(s, side, k);
  }

  /** The smallest ticket of a side that is held, if any is. */
  lemma {:induction false} LeastHeld<T>(s: State<T>, side: Side, k: int) returns (m: int)
    requires Inv(s) && Open(s, side, k)
    ensures m <= k && Open(s, side, m) && forall x | 0 <= x < m :: x in s.Committed(side)
    decreases k
  {
    if x: nat :| x < k && x !in s.Committed(side) {
      m := LeastHeld(s, side, x);
    } else {
      m := k;
    }
  }

  /** The cell of an uncommitted write ticket refuses it only while the ticket one lap back is unread. */
  lemma WriterWaitsFor<T>(s: State<T>, k: int)
    requires Inv(s) && k >= 0 && k !in s.pushed
    ensures s.ring.Grants(Write, k) <==> k < s.N() || k - s.N() in s.popped
  {
    var n, j := s.N(), s.ring.Slot(k);
    NextLapSameSlot(k, n);
    assert k in s.pushed <==> 0 <= k < NextWrite(s.ring, j);
    assert k - n in s.popped <==> 0 <= k - n < NextRead(s.ring, j);
    OnlyOneInLap(k, NextRead(s.ring, j), n);
    if k < n {
      DivisionIsUnique(k, n, 0, k);
      assert Tag(s.ring.stat[j]) % n == j;
      OnlyOneInLap(NextRead(s.ring, j), k, n);
      SlotAtMost(NextRead(s.ring, j), n);
    } else if NextRead(s.ring, j) < k {
      SameSlotGap(NextRead(s.ring, j), k, n);
    }
  }

  /** With a write ticket and a read ticket held, one of the two smallest ones can proceed. */
  lemma SomeoneCanProceed<T(!new)>(s: State<T>, k0: int, m0: int)
    requires Reachable(s) && s.WellFormed()
    requires k0 in HeldTickets(s, Write) && m0 in HeldTickets(s, Read)
    ensures (exists k :: CanProceed(s, Write, k)) || exists m :: CanProceed(s, Read, m)
  {
    ReachableInv(s);
    HeldIsOpen(s, Write, k0);
    HeldIsOpen(s, Read, m0);
    var k := LeastHeld(s, Write, k0);
    var m := LeastHeld(s, Read, m0);
    HeldIsOpen(s, Write, k);
    HeldIsOpen(s, Read, m);
    if s.ring.Grants(Write, k) {
      assert CanProceed(s, Write, k);
    } else {
      WriterWaitsFor(s, k);
      assert m <= k - s.N() < k;
      UnreadMeans(s, m);
      assert CanProceed(s, Read, m);
    }
  }

  /** No holder's cell lets it in. */
  ghost predicate Stuck<T>(s: State<T>)
    requires s.WellFormed()
  {
    forall side, k :: !CanProceed(s, side, k)
  }

  /** Only writers are left, all a lap or more ahead of every read ticket drawn. */
  ghost predicate OnlyBlockedWriters<T>(s: State<T>)
    requires s.WellFormed()
  {
    HeldTickets(s, Read) == {} && forall k | k in HeldTickets(s, Write) :: k >= s.ring.readIdx + s.N()
  }

  /** Only readers are left, all at or past every write ticket drawn. */
  ghost predicate OnlyBlockedReaders<T>(s: State<T>)
    requires s.WellFormed()
  {
    HeldTickets(s, Write) == {} && forall k | k in HeldTickets(s, Read) :: k >= s.ring.writeIdx
  }

  lemma BlockedIsStuck<T>(s: State<T>, side: Side, k: int)
    requires Inv(s) && (OnlyBlockedWriters(s) || OnlyBlockedReaders(s))
    ensures !CanProceed(s, side, k)
  {
    if k in HeldTickets(s, side) {
      HeldIsOpen(s, side, k);
      if side.Write? {
        WriterWaitsFor(s, k);
        assert k - s.N() !in s.popped;
      } else {
        UnreadMeans(s, k);
        assert k !in s.pushed;
      }
    }
  }

  lemma StuckWriters<T>(s: State<T>)
    requires Inv(s) && Stuck(s) && HeldTickets(s, Read) == {}
    ensures OnlyBlockedWriters(s)
  {
    forall k | k in HeldTickets(s, Write)
      ensures k >= s.ring.readIdx + s.N()
    {
      HeldIsOpen(s, Write, k);
      assert !CanProceed(s, Write, k);
      WriterWaitsFor(s, k);
      HeldIsOpen(s, Read, k - s.N());
    }
  }

  lemma StuckReaders<T>(s: State<T>)
    requires Inv(s) && Stuck(s) && HeldTickets(s, Write) == {}
    ensures OnlyBlockedReaders(s)
  {
    forall k | k in HeldTickets(s, Read)
      ensures k >= s.ring.writeIdx
    {
      HeldIsOpen(s, Read, k);
      assert !CanProceed(s, Read, k);
      UnreadMeans(s, k);
      HeldIsOpen(s, Write, k);
    }
  }

  /** Nobody can proceed exactly when only overtaken writers or only premature readers are left. */
  lemma StuckExactlyWhen<T(!new)>(s: State<T>)
    requires Reachable(s) && s.WellFormed()
    ensures Stuck(s) <==> OnlyBlockedWriters(s) || OnlyBlockedReaders(s)
  {
    ReachableInv(s);
    if OnlyBlockedWriters(s) || OnlyBlockedReaders(s) {
      forall side, k
        ensures !CanProceed(s, side, k)
      {
        BlockedIsStuck(s, side, k);
      }
    }
    if Stuck(s) {
      if HeldTickets(s, Read) == {} {
        StuckWriters(s);
      } else if HeldTickets(s, Write) == {} {
        StuckReaders(s);
      } else {
        var k0 := Pick(HeldTickets(s, Write));
        var m0 := Pick(HeldTickets(s, Read));
        SomeoneCanProceed(s, k0, m0);
        assert false;
      }
    }
  }

  // How much is left to do.

  /** The tickets drawn and not yet committed, on both sides. */
  function Outstanding<T>(s: State<T>): int {
    s.ring.writeIdx - |s.pushed| + s.ring.readIdx - |s.popped|
  }

  function Drawing<T(==)>(s: State<T>, moves: seq<Move<T>>): nat
    requires s.WellFormed()
    decreases |moves|
  {
    if moves == [] then 0
    else
      var before := moves[..|moves| - 1];
      Drawing(s, before) + if EventOf(Run(s, before), moves[|moves| - 1]).Draws? then 1 else 0
  }

  function Committing<T(==)>(s: State<T>, moves: seq<Move<T>>): nat
    requires s.WellFormed()
    decreases |moves|
  {
    if moves == [] then 0
    else
      var before := moves[..|moves| - 1];
      Committing(s, before) + if EventOf(Run(s, before), moves[|moves| - 1]).Commits? then 1 else 0
  }

  lemma OutstandingIsHeld<T>(s: State<T>)
    requires Inv(s)
    ensures Outstanding(s) == |HeldTickets(s, Write)| + |HeldTickets(s, Read)|
  {
    HeldPlusCommitted(s, Write);
    HeldPlusCommitted(s, Read);
    assert |s.pushed| == |s.pushed.Keys|;
  }

  /** The counters and the commit logs move only as the event says. */
  ghost predicate Accounted<T>(s: State<T>, s': State<T>, e: Event) {
    match e
    case Draws(Write, _) =>
      && s'.ring.writeIdx == s.ring.writeIdx + 1 && s'.ring.readIdx == s.ring.readIdx
      && s'.pushed == s.pushed && s'.popped == s.popped
    case Draws(Read, _) =>
      && s'.ring.writeIdx == s.ring.writeIdx && s'.ring.readIdx == s.ring.readIdx + 1
      && s'.pushed == s.pushed && s'.popped == s.popped
    case Commits(Write, k) =>
      && s'.ring.writeIdx == s.ring.writeIdx && s'.ring.readIdx == s.ring.readIdx
      && s'.pushed.Keys == s.pushed.Keys + {k} && s'.popped == s.popped
    case Commits(Read, k) =>
      && s'.ring.writeIdx == s.ring.writeIdx && s'.ring.readIdx == s.ring.readIdx
      && s'.pushed == s.pushed && s'.popped == s.popped + {k}
    case _ =>
      && s'.ring.writeIdx == s.ring.writeIdx && s'.ring.readIdx == s.ring.readIdx
      && s'.pushed == s.pushed && s'.popped == s.popped
  }

  lemma AfterAccounted<T>(s: State<T>, t: nat)
    requires s.WellFormed() && t != 0 && s.PcOf(t).Holding? && s.PcOf(t).stage.Accessed?
    ensures Accounted(s, StepAfter(s, t), EventOf(s, Go(t)))
  {
  }

  lemma HoldingAccounted<T>(s: State<T>, t: nat)
    requires s.WellFormed() && t != 0 && s.PcOf(t).Holding?
    ensures Accounted(s, Step(s, t), EventOf(s, Go(t)))
  {
    match s.PcOf(t).stage
    case Checking => assert Step(s, t) == StepCheck(s, t);
    case Granted => assert Step(s, t) == StepOpen(s, t);
    case Accessing(_) => assert Step(s, t) == StepClose(s, t);
    case Accessed => AfterAccounted(s, t);
    case Destroyed => assert Step(s, t) == StepRelease(s, t);
  }

  lemma NextAccounted<T>(s: State<T>, mv: Move<T>)
    requires s.WellFormed()
    ensures Accounted(s, Next(s, mv), EventOf(s, mv))
  {
    if mv.tid != 0 && mv.Go? {
      match s.PcOf(mv.tid)
      case Idle =>
      case Probing(_, _, _) => assert Next(s, mv) == StepProbe(s, mv.tid);
      case Claiming(_, _, _) => assert Next(s, mv) == StepClaim(s, mv.tid);
      case Ready(_, _) => assert Next(s, mv) == StepReady(s, mv.tid);
      case Holding(_, _, _, _) => HoldingAccounted(s, mv.tid);
      case Clearing(_, _) => assert Next(s, mv) == StepClear(s, mv.tid);
    }
  }

  lemma NextOutstanding<T>(s: State<T>, mv: Move<T>)
    requires Inv(s)
    ensures var e := EventOf(s, mv);
      Outstanding(Next(s, mv)) == Outstanding(s) + (if e.Draws? then 1 else 0) - (if e.Commits? then 1 else 0)
  {
    NextAccounted(s, mv);
    EventShows(s, mv);
    assert |s.pushed| == |s.pushed.Keys| && |Next(s, mv).pushed| == |Next(s, mv).pushed.Keys|;
  }

  /**
   Over any run, commits are paid for by tickets outstanding at the start and tickets drawn. So with no
   new tickets there are at most Outstanding(s) commits, and then everyone left is blocked.
  */
  lemma {:induction false} CommitsArePaidFor<T(!new)>(s: State<T>, moves: seq<Move<T>>)
    requires Reachable(s) && s.WellFormed()
    ensures Committing(s, moves) + Outstanding(Run(s, moves)) == Outstanding(s) + Drawing(s, moves)
    ensures Outstanding(Run(s, moves)) >= 0
    decreases |moves|
  {
    hide Reachable;
    ReachableInv(s);
    RunKeepsInv(s, moves);
    OutstandingIsHeld(Run(s, moves));
    if moves != [] {
      var before := moves[..|moves| - 1];
      CommitsArePaidFor(s, before);
      RunKeepsInv(s, before);
      NextOutstanding(Run(s, before), moves[|moves| - 1]);
    }
  }

  // A granted cell stays granted until its holder commits.

  /** A commit changes the word of its own cell only, and that word grants no other ticket. */
  lemma CommitKeepsGrant<T>(s: State<T>, t: nat, side: Side, k: nat)
    requires s.WellFormed() && t != 0 && s.PcOf(t).Holding? && s.PcOf(t).idx >= 0
    requires s.PcOf(t).stage.Accessed? || (s.PcOf(t).stage.Destroyed? && s.PcOf(t).want.Pop?)
    requires s.ring.Grants(s.PcOf(t).want.Side(), s.PcOf(t).idx) && s.ring.Grants(side, k)
    ensures Step(s, t).ring.Grants(side, k) || EventOf(s, Go(t)) == Commits(side, k)
  {
    if s.PcOf(t).stage.Accessed? {
      assert Step(s, t) == StepAfter(s, t);
    } else {
      assert Step(s, t) == StepRelease(s, t);
    }
  }

  lemma HoldingKeepsGrant<T>(s: State<T>, t: nat, side: Side, k: nat)
    requires Inv(s) && t != 0 && s.PcOf(t).Holding? && s.ring.Grants(side, k)
    ensures Step(s, t).ring.Grants(side, k) || EventOf(s, Go(t)) == Commits(side, k)
  {
    hide DeliveryInv, LifeInv, LapInv;
    assert GuestOk(s, t) && ThreadTicketOk(s, s.PcOf(t).want.Side(), t);
    match s.PcOf(t).stage
    case Checking => assert Step(s, t) == StepCheck(s, t);
    case Granted => assert Step(s, t) == StepOpen(s, t);
    case Accessing(_) => assert Step(s, t) == StepClose(s, t);
    case Accessed => CommitKeepsGrant(s, t, side, k);
    case Destroyed => CommitKeepsGrant(s, t, side, k);
  }

  lemma NextKeepsGrant<T>(s: State<T>, mv: Move<T>, side: Side, k: nat)
    requires Inv(s) && s.ring.Grants(side, k)
    ensures Next(s, mv).ring.Grants(side, k) || EventOf(s, mv) == Commits(side, k)
  {
    if mv.tid != 0 && mv.Go? {
      if s.PcOf(mv.tid).Holding? {
        HoldingKeepsGrant(s, mv.tid, side, k);
      } else if !s.PcOf(mv.tid).Idle? {
        QuietFrame(s, mv.tid);
      }
    }
  }

  /** A cell that grants ticket k goes on granting it, in every run, until k is committed. */
  lemma {:induction false} GrantIsKept<T(!new)>(s: State<T>, moves: seq<Move<T>>, side: Side, k: nat)
    requires Reachable(s) && s.WellFormed() && s.ring.Grants(side, k)
    ensures Run(s, moves).ring.Grants(side, k) || k in Run(s, moves).Committed(side)
    decreases |moves|
  {
    hide Reachable, Next, Inv, EventOf;
    if moves != [] {
      var before, mv := moves[..|moves| - 1], moves[|moves| - 1];
      GrantIsKept(s, before, side, k);
      ReachableInv(s);
      RunKeepsInv(s, before);
      NextGrows(Run(s, before), mv);
      EventShows(Run(s, before), mv);
      if Run(s, before).ring.Grants(side, k) {
        NextKeepsGrant(Run(s, before), mv, side, k);
      }
    }
  }

  /** Thread t is on its way to committing ticket k and its cell has let it in, or will at its next look. */
  ghost predicate OnItsWay<T>(s: State<T>, t: nat, side: Side, k: nat)
    requires s.WellFormed()
  {
    s.PcOf(t).Holding? && s.PcOf(t).want.Side() == side && s.PcOf(t).idx == k && s.ring.Grants(side, k)
  }

  lemma NextOnItsWay<T>(s: State<T>, mv: Move<T>, t: nat, side: Side, k: nat)
    requires Inv(s) && t != 0 && OnItsWay(s, t, side, k)
    ensures var s' := Next(s, mv);
      || k in s'.Committed(side)
      || (OnItsWay(s', t, side, k)
          && StepsLeft(s'.PcOf(t)) + (if mv == Go(t) then 1 else 0) <= StepsLeft(s.PcOf(t)))
  {
    NextKeepsGrant(s, mv, side, k);
    EventShows(s, mv);
    if mv.tid != t {
      OthersKeepPc(s, mv, t);
    } else if mv.Go? {
      HoldingFrame(s, t);
      HoldingStepCounts(s, t);
      assert GuestOk(s, t);
      OwnGrantProceeds(s, t, side, k);
    }
  }

  lemma OwnGrantProceeds<T>(s: State<T>, t: nat, side: Side, k: nat)
    requires s.WellFormed() && OnItsWay(s, t, side, k)
    requires s.PcOf(t).stage.Destroyed? ==> side.Read?
    ensures Step(s, t).PcOf(t).Holding? || k in Step(s, t).Committed(side)
  {
    match s.PcOf(t).stage
    case Checking => assert Step(s, t) == StepCheck(s, t);
    case Granted => assert Step(s, t) == StepOpen(s, t);
    case Accessing(_) => assert Step(s, t) == StepClose(s, t);
    case Accessed => assert Step(s, t) == StepAfter(s, t);
    case Destroyed => assert Step(s, t) == StepRelease(s, t);
  }

  lemma {:induction false} GrantedProgress<T>(s: State<T>, moves: seq<Move<T>>, t: nat, side: Side, k: nat)
    requires Inv(s) && t != 0 && OnItsWay(s, t, side, k)
    ensures var s' := Run(s, moves);
      || k in s'.Committed(side)
      || (OnItsWay(s', t, side, k) && StepsLeft(s'.PcOf(t)) + OwnSteps(moves, t) <= StepsLeft(s.PcOf(t)))
    decreases |moves|
  {
    if moves != [] {
      var before, mv := moves[..|moves| - 1], moves[|moves| - 1];
      GrantedProgress(s, before, t, side, k);
      RunKeepsInv(s, before);
      NextGrows(Run(s, before), mv);
      if OnItsWay(Run(s, before), t, side, k) {
        NextOnItsWay(Run(s, before), mv, t, side, k);
      }
    }
  }

  /** Once a ticket's turn has come, five more steps of its holder commit it, whatever the others do. */
  lemma GrantedTicketCommits<T(!new)>(s: State<T>, moves: seq<Move<T>>, t: nat)
    requires Reachable(s) && s.WellFormed() && t != 0 && s.PcOf(t).Holding?
    requires s.ring.Grants(s.PcOf(t).want.Side(), s.PcOf(t).idx) && OwnSteps(moves, t) >= 5
    ensures s.PcOf(t).idx in Run(s, moves).Committed(s.PcOf(t).want.Side())
  {
    ReachableInv(s);
    var pc := s.PcOf(t);
    assert ThreadTicketOk(s, pc.want.Side(), t);
    GrantedProgress(s, moves, t, pc.want.Side(), pc.idx);
  }
}
