/** The thread table over whole runs, and the bounds on how many steps a call takes. */
module MpmcThreads {
  import opened MpmcModel
  import opened MpmcInvariant
  import opened MpmcSafety
  import opened MpmcTable
  import opened MpmcRuns
  import opened Counting

  /** The record that thread t has been given, if it is in a try call that has found one. */
  function RecordInUse<T>(s: State<T>, t: nat): int {
    match s.PcOf(t)
    case Ready(_, rec) => rec
    case Holding(_, rec, _, _) => rec
    case Clearing(_, rec) => rec
    case _ => NO_RECORD
  }

  /** A thread gets the same record on every call, and no two threads ever get the same one. */
  lemma RecordsArePrivate<T(!new)>(s: State<T>, moves: seq<Move<T>>, i: nat, j: nat, t: nat, u: nat)
    requires Reachable(s) && s.WellFormed() && i <= j <= |moves| && t != 0 && u != 0
    requires RecordInUse(At(s, moves, i), t) != NO_RECORD && RecordInUse(At(s, moves, j), u) != NO_RECORD
    ensures RecordInUse(At(s, moves, i), t) == RecordInUse(At(s, moves, j), u) <==> t == u
  {
    hide Reachable, Run, Next;
    ReachableInv(s);
    var si, sj := At(s, moves, i), At(s, moves, j);
    AtInv(s, moves, i);
    AtInv(s, moves, j);
    RunGrows(s, moves, i, j);
    assert ProbeOk(si, t) && ProbeOk(sj, u);
  }

  /** getThrIdx is out of attempts and about to return null to thread t. */
  predicate GetsNull<T>(s: State<T>, t: nat) {
    s.PcOf(t).Probing? && s.PcOf(t).cnt == 0
  }

  /** Every entry is taken by another thread. */
  predicate FullForOthers<T>(s: State<T>, t: nat) {
    forall c | 0 <= c < s.M() :: s.ring.tids[c] != 0 && s.ring.tids[c] != t
  }

  /** getThrIdx returns null only after finding every entry taken by another thread. */
  lemma NullMeansFull<T(!new)>(s: State<T>, t: nat)
    requires Reachable(s) && s.WellFormed() && t != 0 && GetsNull(s, t)
    ensures FullForOthers(s, t)
  {
    ReachableInv(s);
    assert ProbeOk(s, t);
    forall c | 0 <= c < s.M()
      ensures s.ring.tids[c] != 0 && s.ring.tids[c] != t
    {
      PlaceOfOffset(t, c, s.M());
    }
  }

  /** A table full of others stays so, and then thread t is never given a record again. */
  lemma FullIsForever<T(!new)>(s: State<T>, moves: seq<Move<T>>, i: nat, j: nat, t: nat)
    requires Reachable(s) && s.WellFormed() && i <= j <= |moves| && t != 0 && FullForOthers(At(s, moves, i), t)
    ensures FullForOthers(At(s, moves, j), t) && RecordInUse(At(s, moves, j), t) == NO_RECORD
  {
    hide Reachable, Run, Next;
    ReachableInv(s);
    AtInv(s, moves, j);
    RunGrows(s, moves, i, j);
    assert ProbeOk(At(s, moves, j), t);
  }

  /** A try call is in progress: it will hold its ticket through a record. */
  predicate InTryCall<T>(pc: Pc<T>) {
    match pc
    case Idle => false
    case Ready(_, rec) => rec != NO_RECORD
    case Holding(_, rec, _, _) => rec != NO_RECORD
    case _ => true
  }

  /** Only threads of the set are in try calls, and only they have entries. */
  ghost predicate TriersFrom<T>(s: State<T>, ids: set<int>) {
    && (forall t | t in s.pcs && InTryCall(s.pcs[t]) :: t in ids)
    && (forall c | 0 <= c < s.M() && s.ring.tids[c] != 0 :: s.ring.tids[c] in ids)
  }

  /** Only threads of the set make try calls. */
  predicate TriedBy<T>(moves: seq<Move<T>>, ids: set<int>) {
    forall i | 0 <= i < |moves| && moves[i].Call? && !moves[i].blocking :: moves[i].tid in ids
  }

  /** A blocking call never becomes a try call and does not touch the table. */
  lemma BlockingStaysOutside<T>(s: State<T>, t: nat)
    requires s.WellFormed() && !InTryCall(s.PcOf(t))
    ensures !InTryCall(Step(s, t).PcOf(t)) && Step(s, t).ring.tids == s.ring.tids
  {
    match s.PcOf(t)
    case Idle =>
    case Ready(_, _) => assert Step(s, t) == StepReady(s, t);
    case Holding(_, _, _, Checking) => assert Step(s, t) == StepCheck(s, t);
    case Holding(_, _, _, Granted) => assert Step(s, t) == StepOpen(s, t);
    case Holding(_, _, _, Accessing(_)) => assert Step(s, t) == StepClose(s, t);
    case Holding(_, _, _, Accessed) => assert Step(s, t) == StepAfter(s, t);
    case Holding(_, _, _, Destroyed) => assert Step(s, t) == StepRelease(s, t);
  }

  lemma NextTriersFrom<T>(s: State<T>, mv: Move<T>, ids: set<int>)
    requires Inv(s) && TriersFrom(s, ids) && (mv.Call? && !mv.blocking ==> mv.tid in ids)
    ensures TriersFrom(Next(s, mv), ids)
  {
    hide Step;
    if mv.tid != 0 && mv.Go? {
      PcsElsewhere(s, mv.tid);
      if InTryCall(s.PcOf(mv.tid)) {
        assert ProbeOk(s, mv.tid);
        StepOwnRecords(s, mv.tid);
      } else {
        BlockingStaysOutside(s, mv.tid);
      }
    }
  }

  lemma {:induction false} RunTriersFrom<T>(s: State<T>, moves: seq<Move<T>>, ids: set<int>)
    requires Inv(s) && TriersFrom(s, ids) && TriedBy(moves, ids)
    ensures TriersFrom(Run(s, moves), ids)
    decreases |moves|
  {
    if moves != [] {
      var before := moves[..|moves| - 1];
      RunTriersFrom(s, before, ids);
      RunKeepsInv(s, before);
      NextTriersFrom(Run(s, before), moves[|moves| - 1], ids);
    }
  }

  /** The entries of a full table are as many threads as it has entries. */
  lemma DistinctEntries<T>(s: State<T>, ids: set<int>, t: nat)
    requires Inv(s) && TriersFrom(s, ids) && FullForOthers(s, t) && t in ids
    ensures |ids| > s.M()
  {
    var f: int -> int := c => if 0 <= c < s.M() then s.ring.tids[c] else 0;
    var entries := Image(Below(s.M()), f);
    ImageSize(Below(s.M()), f);
    assert entries <= ids - {t};
    SubsetSize(entries, ids - {t});
  }

  /**
   With no more threads that make try calls than entries, getThrIdx never returns null, whatever number of
   other threads make blocking calls.
  */
  lemma {:induction false} EnoughEntries<T(!new)>(
    size: nat, thrSize: nat, moves: seq<Move<T>>, ids: set<int>, t: nat)
    requires size > 0 && thrSize > 0 && |ids| <= thrSize && TriedBy(moves, ids)
    ensures !GetsNull(Run(Initial<T>(size, thrSize), moves), t)
  {
    var s0 := Initial<T>(size, thrSize);
    InitialInv<T>(size, thrSize);
    RunKeepsInv(s0, moves);
    RunTriersFrom(s0, moves, ids);
    var s := Run(s0, moves);
    if GetsNull(s, t) {
      assert Reachable(s);
      NullMeansFull(s, t);
      DistinctEntries(s, ids, t);
      assert false;
    }
  }

  // Bounded calls.

  /** Thread t is in emplace or pop and waits for its cell. */
  predicate Spinning<T>(s: State<T>, t: nat)
    requires s.WellFormed()
  {
    && s.PcOf(t).Holding? && s.PcOf(t).stage.Checking? && s.PcOf(t).rec == NO_RECORD
    && !s.ring.Grants(s.PcOf(t).want.Side(), s.PcOf(t).idx)
  }

  /** An upper bound on the steps left in a call, not counting spinning. */
  function StepsLeft<T>(pc: Pc<T>): nat {
    match pc
    case Idle => 0
    case Clearing(_, _) => 1
    case Holding(_, _, _, Destroyed) => 2
    case Holding(_, _, _, Accessed) => 3
    case Holding(_, _, _, Accessing(_)) => 4
    case Holding(_, _, _, Granted) => 5
    case Holding(_, _, _, Checking) => 6
    case Ready(_, _) => 7
    case Probing(_, _, cnt) => 2 * cnt + 8
    case Claiming(_, _, cnt) => 2 * cnt + 9
  }

  lemma AccessStepCounts<T>(s: State<T>, t: nat)
    requires s.WellFormed() && s.PcOf(t).Holding? && (s.PcOf(t).stage.Granted? || s.PcOf(t).stage.Accessing?)
    ensures StepsLeft(Step(s, t).PcOf(t)) < StepsLeft(s.PcOf(t))
  {
    if s.PcOf(t).stage.Granted? {
      assert Step(s, t) == StepOpen(s, t);
    } else {
      assert Step(s, t) == StepClose(s, t);
    }
  }

  lemma HoldingStepCounts<T>(s: State<T>, t: nat)
    requires s.WellFormed() && s.PcOf(t).Holding? && !Spinning(s, t)
    ensures StepsLeft(Step(s, t).PcOf(t)) < StepsLeft(s.PcOf(t))
  {
    match s.PcOf(t).stage
    case Checking => assert Step(s, t) == StepCheck(s, t);
    case Granted => AccessStepCounts(s, t);
    case Accessing(_) => AccessStepCounts(s, t);
    case Accessed => assert Step(s, t) == StepAfter(s, t);
    case Destroyed => assert Step(s, t) == StepRelease(s, t);
  }

  lemma StepCounts<T>(s: State<T>, t: nat)
    requires s.WellFormed() && !s.PcOf(t).Idle? && !Spinning(s, t)
    ensures StepsLeft(Step(s, t).PcOf(t)) < StepsLeft(s.PcOf(t))
  {
    match s.PcOf(t)
    case Probing(_, _, _) => assert Step(s, t) == StepProbe(s, t);
    case Claiming(_, _, _) => assert Step(s, t) == StepClaim(s, t);
    case Ready(_, _) => assert Step(s, t) == StepReady(s, t);
    case Holding(_, _, _, _) => HoldingStepCounts(s, t);
    case Clearing(_, _) => assert Step(s, t) == StepClear(s, t);
  }

  function OwnSteps<T>(moves: seq<Move<T>>, t: nat): nat {
    if moves == [] then 0
    else OwnSteps(moves[..|moves| - 1], t) + if moves[|moves| - 1].Go? && moves[|moves| - 1].tid == t then 1 else 0
  }

  lemma TryStaysTry<T>(s: State<T>, t: nat)
    requires s.WellFormed() && InTryCall(s.PcOf(t))
    ensures Step(s, t).PcOf(t).Idle? || InTryCall(Step(s, t).PcOf(t))
  {
    match s.PcOf(t)
    case Holding(_, _, _, _) => HoldingFrame(s, t);
    case Probing(_, _, _) => assert Step(s, t) == StepProbe(s, t);
    case Claiming(_, _, _) => assert Step(s, t) == StepClaim(s, t);
    case Ready(_, _) => assert Step(s, t) == StepReady(s, t);
    case Clearing(_, _) =>
  }

  /** Thread t is idle somewhere in the run. */
  ghost predicate Returns<T>(s: State<T>, moves: seq<Move<T>>, t: nat)
    requires s.WellFormed()
  {
    exists i: nat :: i <= |moves| && At(s, moves, i).PcOf(t).Idle?
  }

  lemma AtPrefix<T>(s: State<T>, moves: seq<Move<T>>, n: nat, i: nat)
    requires s.WellFormed() && i <= n <= |moves|
    ensures At(s, moves[..n], i) == At(s, moves, i)
  {
    assert moves[..n][..i] == moves[..i];
  }

  /** Each own step of a try call brings it one nearer to its return, whatever the others do. */
  lemma {:induction false} TryCallProgress<T>(s: State<T>, moves: seq<Move<T>>, t: nat)
    requires s.WellFormed() && t != 0 && InTryCall(s.PcOf(t))
    ensures var pc := Run(s, moves).PcOf(t);
      || Returns(s, moves, t)
      || (InTryCall(pc) && StepsLeft(pc) + OwnSteps(moves, t) <= StepsLeft(s.PcOf(t)))
    decreases |moves|
  {
    if moves != [] {
      var n := |moves| - 1;
      var before, mv := Run(s, moves[..n]), moves[n];
      TryCallProgress(s, moves[..n], t);
      if Returns(s, moves[..n], t) {
        var i: nat :| i <= n && At(s, moves[..n], i).PcOf(t).Idle?;
        AtPrefix(s, moves, n, i);
      } else if mv.tid != t {
        OthersKeepPc(before, mv, t);
      } else if mv.Go? {
        StepCounts(before, t);
        TryStaysTry(before, t);
        assert moves[..|moves|] == moves;
        assert At(s, moves, |moves|) == Next(before, mv);
      }
    }
  }

  /** tryVisitPush and tryVisitPop are wait-free: 2 * THR_SIZE + 9 own steps always suffice. */
  lemma TryCallsAreWaitFree<T>(s: State<T>, want: Want<T>, moves: seq<Move<T>>, t: nat)
    requires s.WellFormed() && t != 0 && s.PcOf(t).Idle? && OwnSteps(moves, t) >= 2 * s.M() + 9
    ensures Returns(Next(s, Call(t, want, false)), moves, t)
  {
    TryCallProgress(Next(s, Call(t, want, false)), moves, t);
  }
}
