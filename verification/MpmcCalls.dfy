/** What a call has done by the time it returns, whatever the other threads do meanwhile. */
module MpmcCalls {
  import opened MpmcModel
  import opened MpmcInvariant
  import opened MpmcSafety
  import opened MpmcTable
  import opened MpmcRuns
  import opened MpmcOrder
  import opened MpmcThreads

  /** An idle thread that calls is in that call at once, with nothing of it done. */
  lemma EveryCallBegins<T(!new)>(s: State<T>, u: nat, want: Want<T>, blocking: bool)
    requires Reachable(s) && s.WellFormed() && u != 0 && s.PcOf(u).Idle?
    ensures var s', side := Next(s, Call(u, want, blocking)), want.Side();
      s'.ring == s.ring && InThisCall(s', u, want, blocking, Kept(s, u, side), s.ring.Counter(side))
  {
    ReachableInv(s);
    BeginIsInCall(s, u, want, blocking);
  }

  /** Move i is a step of the call that commits a ticket of its side: its value is pushed, or one is delivered to it. */
  ghost predicate CommitsAt<T>(s: State<T>, moves: seq<Move<T>>, i: nat, u: nat, want: Want<T>)
    requires s.WellFormed() && i < |moves|
  {
    && moves[i] == Go(u)
    && (match EventOf(At(s, moves, i), moves[i])
        case Commits(side, b) =>
          && side == want.Side() && b in At(s, moves, i + 1).Committed(side)
          && (want.Push? ==> b in At(s, moves, i + 1).pushed && At(s, moves, i + 1).pushed[b] == want.value)
          && (want.Pop? ==> b in At(s, moves, i + 1).delivered)
        case _ => false)
  }

  ghost predicate CommitsBefore<T(!new)>(s: State<T>, moves: seq<Move<T>>, c: nat, j: nat, u: nat, want: Want<T>)
    requires s.WellFormed() && j <= |moves|
  {
    exists i: nat :: c < i < j && CommitsAt(s, moves, i, u, want)
  }

  /** A commit is of the ticket, the side and the value of the call. */
  lemma CommitIsOfCall<T>(s: State<T>, u: nat, want: Want<T>, blocking: bool, kept: int, drawn: nat)
    requires Inv(s) && u != 0 && InThisCall(s, u, want, blocking, kept, drawn) && EventOf(s, Go(u)).Commits?
    ensures var e, s' := EventOf(s, Go(u)), Next(s, Go(u));
      && e.side == want.Side() && e.ticket in s'.Committed(e.side)
      && (want.Push? ==> e.ticket in s'.pushed && s'.pushed[e.ticket] == want.value)
      && (want.Pop? ==> e.ticket in s'.delivered)
  {
    hide TableInv, TicketInv, LapInv, DeliveryInv, LifeInv;
    assert GuestOk(s, u);
    if s.PcOf(u).stage.Accessed? {
      assert Next(s, Go(u)) == StepAfter(s, u);
    } else {
      assert Next(s, Go(u)) == StepRelease(s, u);
    }
  }

  lemma CommitInRun<T>(s: State<T>, moves: seq<Move<T>>, c: nat, j: nat, u: nat, want: Want<T>, blocking: bool)
    requires s.WellFormed() && Inv(s) && CallSpans(s, moves, c, j, u, want, blocking) && moves[j] == Go(u)
    ensures EventOf(At(s, moves, j), moves[j]).Commits? <==> CommitsAt(s, moves, j, u, want)
  {
    hide Inv, EventOf, Next, Run;
    var r, side := At(s, moves, c), want.Side();
    CallStaysInCall(s, moves, c, j, u, want, blocking);
    AtInv(s, moves, j);
    AtNext(s, moves, j);
    if EventOf(At(s, moves, j), moves[j]).Commits? {
      CommitIsOfCall(At(s, moves, j), u, want, blocking, Kept(r, u, side), r.ring.Counter(side));
    }
  }

  lemma HoldingToClearing<T>(s: State<T>, u: nat)
    requires s.WellFormed() && u != 0 && s.PcOf(u).Holding? && !Step(s, u).PcOf(u).Idle?
    ensures Step(s, u).PcOf(u).Clearing? <==> EventOf(s, Go(u)).Commits?
  {
    match s.PcOf(u).stage
    case Checking => assert Step(s, u) == StepCheck(s, u);
    case Granted => assert Step(s, u) == StepOpen(s, u);
    case Accessing(_) => assert Step(s, u) == StepClose(s, u);
    case Accessed => assert Step(s, u) == StepAfter(s, u);
    case Destroyed => assert Step(s, u) == StepRelease(s, u);
  }

  /** A step that goes on with the call leads to the reset of the record exactly by committing. */
  lemma StepToClearing<T>(s: State<T>, u: nat)
    requires s.WellFormed() && u != 0 && !Step(s, u).PcOf(u).Idle? && !s.PcOf(u).Idle?
    ensures Step(s, u).PcOf(u).Clearing? <==> EventOf(s, Go(u)).Commits?
    ensures !s.PcOf(u).Clearing?
  {
    match s.PcOf(u)
    case Probing(_, _, _) => assert Step(s, u) == StepProbe(s, u);
    case Claiming(_, _, _) => assert Step(s, u) == StepClaim(s, u);
    case Ready(_, _) => assert Step(s, u) == StepReady(s, u);
    case Holding(_, _, _, _) => HoldingToClearing(s, u);
    case Clearing(_, _) =>
  }

  /** While a call lasts, its record waits to be reset exactly after it has committed. */
  lemma {:induction false} ClearingMeans<T(!new)>(
    s: State<T>, moves: seq<Move<T>>, c: nat, j: nat, u: nat, want: Want<T>, blocking: bool)
    requires s.WellFormed() && Inv(s) && CallSpans(s, moves, c, j, u, want, blocking)
    ensures At(s, moves, j).PcOf(u).Clearing? <==> CommitsBefore(s, moves, c, j, u, want)
    decreases j
  {
    hide Inv, EventOf, Step, Run, CommitsAt;
    AtNext(s, moves, j - 1);
    if j > c + 1 {
      ClearingMeans(s, moves, c, j - 1, u, want, blocking);
      var before, mv := At(s, moves, j - 1), moves[j - 1];
      assert !before.PcOf(u).Idle? && !At(s, moves, j).PcOf(u).Idle?;
      if mv.tid != u {
        OthersKeepPc(before, mv, u);
        NotByOthers(s, moves, j - 1, u, want);
      } else if mv.Go? {
        StepToClearing(before, u);
        CommitInRun(s, moves, c, j - 1, u, want, blocking);
      } else {
        NotByOthers(s, moves, j - 1, u, want);
      }
    }
  }

  lemma NotByOthers<T>(s: State<T>, moves: seq<Move<T>>, i: nat, u: nat, want: Want<T>)
    requires s.WellFormed() && i < |moves| && moves[i] != Go(u)
    ensures !CommitsAt(s, moves, i, u, want)
  {
  }

  /** The cell of the call's ticket refuses it, and the record keeps the ticket. */
  ghost predicate Refused<T>(s: State<T>, u: nat, want: Want<T>)
    requires s.WellFormed()
  {
    && s.PcOf(u).Holding? && !s.ring.Grants(want.Side(), s.PcOf(u).idx)
    && Kept(Step(s, u), u, want.Side()) == s.PcOf(u).idx
  }

  /** A try call gives up: every entry is another thread's, or its cell refuses its ticket. */
  ghost predicate GivesUp<T>(s: State<T>, u: nat, want: Want<T>)
    requires s.WellFormed()
  {
    FullForOthers(s, u) || Refused(s, u, want)
  }

  /** The last step of a call ends its probe loop in vain, is the last one with its ticket, or resets its record. */
  lemma LastStepFrom<T>(s: State<T>, u: nat)
    requires s.WellFormed() && u != 0 && !s.PcOf(u).Idle? && Step(s, u).PcOf(u).Idle?
    ensures GetsNull(s, u) || s.PcOf(u).Holding? || s.PcOf(u).Clearing?
  {
    match s.PcOf(u)
    case Probing(_, _, _) => assert Step(s, u) == StepProbe(s, u);
    case Claiming(_, _, _) =>
    case Ready(_, _) =>
    case _ =>
  }

  /** It resets the record, commits, or gives up. */
  lemma LastStep<T(!new)>(s: State<T>, u: nat, want: Want<T>, blocking: bool, kept: int, drawn: nat)
    requires Reachable(s) && s.WellFormed() && u != 0 && InThisCall(s, u, want, blocking, kept, drawn)
    requires Step(s, u).PcOf(u).Idle?
    ensures s.PcOf(u).Clearing? || EventOf(s, Go(u)).Commits? <==> blocking || !GivesUp(s, u, want)
  {
    hide Reachable, Step, Next;
    ReachableInv(s);
    LastStepFrom(s, u);
    match s.PcOf(u)
    case Probing(_, _, _) => NullMeansFull(s, u);
    case Holding(_, _, _, _) => LastStepHolding(s, u, want, blocking, kept, drawn);
    case Clearing(_, _) => assert ProbeOk(s, u);
  }

  lemma LastStepHolding<T>(s: State<T>, u: nat, want: Want<T>, blocking: bool, kept: int, drawn: nat)
    requires Inv(s) && u != 0 && InThisCall(s, u, want, blocking, kept, drawn) && s.PcOf(u).Holding?
    requires Step(s, u).PcOf(u).Idle?
    ensures EventOf(s, Go(u)).Commits? <==> blocking || !GivesUp(s, u, want)
  {
    hide Step, LapInv, DeliveryInv, LifeInv;
    assert ProbeOk(s, u) && GuestOk(s, u) && ThreadTicketOk(s, want.Side(), u);
    LastStageIs(s, u);
    if s.PcOf(u).stage.Checking? {
      KeptIs(Step(s, u), u, want.Side(), s.PcOf(u).rec);
    }
  }

  /** A call ends with its ticket in hand by being refused, which only try calls are, or by committing. */
  lemma LastStageIs<T>(s: State<T>, u: nat)
    requires s.WellFormed() && TableInv(s) && u != 0 && s.PcOf(u).Holding? && Step(s, u).PcOf(u).Idle?
    ensures var pc, s' := s.PcOf(u), Step(s, u);
      if pc.stage.Checking? then
        && pc.rec != NO_RECORD && !s.ring.Grants(pc.want.Side(), pc.idx)
        && s'.WellFormed() && s'.ring == s.ring && TableInv(s')
      else pc.rec == NO_RECORD && EventOf(s, Go(u)).Commits?
  {
    match s.PcOf(u).stage
    case Checking =>
      HoldingKeepsTable(s, u);
      assert Step(s, u) == StepCheck(s, u);
    case Granted =>
    case Accessing(_) =>
    case Accessed => assert Step(s, u) == StepAfter(s, u);
    case Destroyed => assert Step(s, u) == StepRelease(s, u);
  }

  /** The call that u began at move c returns by its step at move j. */
  ghost predicate ReturnsAt<T>(
    s: State<T>, moves: seq<Move<T>>, c: nat, j: nat, u: nat, want: Want<T>, blocking: bool)
    requires s.WellFormed()
  {
    CallSpans(s, moves, c, j, u, want, blocking) && moves[j] == Go(u) && At(s, moves, j + 1).PcOf(u).Idle?
  }

  /**
   A call that returns has committed a ticket of its side and its value, unless it is a try call and, at its
   last step, every entry is another thread's or its cell refuses its ticket, which its record then keeps.
  */
  lemma EveryCallCommitsOrGivesUp<T(!new)>(
    s: State<T>, moves: seq<Move<T>>, c: nat, j: nat, u: nat, want: Want<T>, blocking: bool)
    requires Reachable(s) && s.WellFormed() && ReturnsAt(s, moves, c, j, u, want, blocking)
    ensures CommitsBefore(s, moves, c, j + 1, u, want) <==> blocking || !GivesUp(At(s, moves, j), u, want)
  {
    hide Reachable, Inv, EventOf, Step, Run, CommitsAt, GivesUp, InThisCall;
    ReachableInv(s);
    var r, last, side := At(s, moves, c), At(s, moves, j), want.Side();
    CallStaysInCall(s, moves, c, j, u, want, blocking);
    ClearingMeans(s, moves, c, j, u, want, blocking);
    CommitInRun(s, moves, c, j, u, want, blocking);
    RunIsReachable(s, moves[..j]);
    AtNext(s, moves, j);
    LastStep(last, u, want, blocking, Kept(r, u, side), r.ring.Counter(side));
  }

  /** No call commits twice. */
  lemma NoCallCommitsTwice<T(!new)>(
    s: State<T>, moves: seq<Move<T>>, c: nat, i: nat, j: nat, u: nat, want: Want<T>, blocking: bool)
    requires Reachable(s) && s.WellFormed() && CallSpans(s, moves, c, j, u, want, blocking) && c < i < j
    requires CommitsAt(s, moves, i, u, want)
    ensures !CommitsAt(s, moves, j, u, want)
  {
    hide Reachable, Inv, Run;
    ReachableInv(s);
    ClearingMeans(s, moves, c, j, u, want, blocking);
  }
}
