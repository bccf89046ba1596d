/** Statements about whole runs of the multi-producer multi-consumer ring: what stays, and in what order. */
module MpmcRuns {
  import opened MpmcModel
  import opened MpmcInvariant
  import opened MpmcSafety
  import opened MpmcCells

  /** The state just before move i of a run. */
  function At<T(==)>(s: State<T>, moves: seq<Move<T>>, i: nat): (r: State<T>)
    requires s.WellFormed() && i <= |moves|
    ensures Keeps(s, r)
  {
    Run(s, moves[..i])
  }

  lemma AtNext<T>(s: State<T>, moves: seq<Move<T>>, i: nat)
    requires s.WellFormed() && i < |moves|
    ensures At(s, moves, i + 1) == Next(At(s, moves, i), moves[i])
  {
    assert moves[..i + 1][..i] == moves[..i];
  }

  lemma AtInv<T>(s: State<T>, moves: seq<Move<T>>, i: nat)
    requires Inv(s) && i <= |moves|
    ensures Inv(At(s, moves, i))
  {
    RunKeepsInv(s, moves[..i]);
  }

  lemma {:induction false} RunInTwo<T>(s: State<T>, first: seq<Move<T>>, second: seq<Move<T>>)
    requires s.WellFormed()
    ensures Run(s, first + second) == Run(Run(s, first), second)
    decreases |second|
  {
    hide Next;
    var both := first + second;
    if second == [] {
      assert both == first;
    } else {
      var n := |second| - 1;
      RunInTwo(s, first, second[..n]);
      assert both[..|both| - 1] == first + second[..n];
    }
  }

  /** A run from a reachable state ends in a reachable state. */
  lemma RunIsReachable<T(!new)>(s: State<T>, more: seq<Move<T>>)
    requires Reachable(s) && s.WellFormed()
    ensures Reachable(Run(s, more))
  {
    hide Run;
    var size: nat, thrSize: nat, moves: seq<Move<T>> :|
      size > 0 && thrSize > 0 && s == Run(Initial(size, thrSize), moves);
    RunInTwo(Initial<T>(size, thrSize), moves, more);
  }

  // What a step of one thread leaves to the others.

  lemma PcsElsewhere<T>(s: State<T>, t: nat)
    requires s.WellFormed()
    ensures Step(s, t).pcs == s.pcs || Step(s, t).pcs == s.pcs[t := Step(s, t).PcOf(t)]
  {
    if s.PcOf(t).Holding? {
      HoldingFrame(s, t);
    } else if !s.PcOf(t).Idle? {
      QuietFrame(s, t);
    }
  }

  lemma OthersKeepPc<T>(s: State<T>, mv: Move<T>, u: nat)
    requires s.WellFormed() && mv.tid != u
    ensures Next(s, mv).PcOf(u) == s.PcOf(u)
  {
    if mv.tid != 0 && mv.Go? {
      PcsElsewhere(s, mv.tid);
    }
  }

  lemma {:induction false} RunKeepsOthers<T>(s: State<T>, moves: seq<Move<T>>, u: nat)
    requires s.WellFormed() && forall i | 0 <= i < |moves| :: moves[i].tid != u
    ensures Run(s, moves).PcOf(u) == s.PcOf(u)
    decreases |moves|
  {
    if moves != [] {
      RunKeepsOthers(s, moves[..|moves| - 1], u);
      OthersKeepPc(Run(s, moves[..|moves| - 1]), moves[|moves| - 1], u);
    }
  }

  /** A step of t changes only records that t owns, and table entries only from empty to t. */
  ghost predicate OwnRecords<T>(s: State<T>, s': State<T>, t: nat)
    requires s.WellFormed() && s'.WellFormed()
  {
    && s'.M() == s.M()
    && (forall c | 0 <= c < s.M() ::
          s'.ring.tids[c] == s.ring.tids[c] || (s.ring.tids[c] == 0 && s'.ring.tids[c] == t))
    && (forall c | 0 <= c < s.M() && s.ring.tids[c] != t ::
          s'.ring.writeRec[c] == s.ring.writeRec[c] && s'.ring.readRec[c] == s.ring.readRec[c])
  }

  lemma StepOwnRecords<T>(s: State<T>, t: nat)
    requires s.WellFormed() && ProbeOk(s, t)
    ensures OwnRecords(s, Step(s, t), t)
  {
    match s.PcOf(t)
    case Idle =>
    case Probing(_, _, _) => assert OwnRecords(s, StepProbe(s, t), t);
    case Claiming(_, _, _) => assert OwnRecords(s, StepClaim(s, t), t);
    case Ready(_, _) => assert OwnRecords(s, StepReady(s, t), t);
    case Holding(_, _, _, _) => HoldingFrame(s, t);
    case Clearing(_, _) => assert OwnRecords(s, StepClear(s, t), t);
  }

  // What no step takes back.

  ghost predicate Grows<T>(s: State<T>, s': State<T>) {
    && s.WellFormed() && s'.WellFormed() && s'.M() == s.M()
    && (forall k | k in s.pushed :: k in s'.pushed && s'.pushed[k] == s.pushed[k])
    && s.popped <= s'.popped
    && (forall k | k in s.delivered :: k in s'.delivered && s'.delivered[k] == s.delivered[k])
    && s.built <= s'.built && s.freed <= s'.freed
    && s.ring.writeIdx <= s'.ring.writeIdx && s.ring.readIdx <= s'.ring.readIdx
    && (forall c | 0 <= c < s.M() && s.ring.tids[c] != 0 :: s'.ring.tids[c] == s.ring.tids[c])
  }

  lemma HoldingGrows<T>(s: State<T>, t: nat)
    requires Inv(s) && s.PcOf(t).Holding?
    ensures Grows(s, Step(s, t))
  {
    assert GuestOk(s, t);
    var pc := s.PcOf(t);
    if pc.stage.Inside() {
      assert ThreadTicketOk(s, pc.want.Side(), t);
      GrantMeans(s, pc.want.Side(), pc.idx);
    }
    match pc.stage
    case Checking => assert Grows(s, StepCheck(s, t));
    case Granted => assert Grows(s, StepOpen(s, t));
    case Accessing(_) => assert Grows(s, StepClose(s, t));
    case Accessed => assert Grows(s, StepAfter(s, t));
    case Destroyed => assert Grows(s, StepRelease(s, t));
  }

  lemma TableGrows<T>(s: State<T>, t: nat)
    requires s.WellFormed() && (s.PcOf(t).Probing? || s.PcOf(t).Claiming?)
    ensures Grows(s, Step(s, t))
  {
  }

  lemma TicketGrows<T>(s: State<T>, t: nat)
    requires s.WellFormed() && (s.PcOf(t).Ready? || s.PcOf(t).Clearing?)
    ensures Grows(s, Step(s, t))
  {
  }

  lemma NextGrows<T>(s: State<T>, mv: Move<T>)
    requires Inv(s)
    ensures Grows(s, Next(s, mv))
  {
    if mv.tid != 0 && mv.Go? {
      match s.PcOf(mv.tid)
      case Idle =>
      case Probing(_, _, _) => TableGrows(s, mv.tid);
      case Claiming(_, _, _) => TableGrows(s, mv.tid);
      case Ready(_, _) => TicketGrows(s, mv.tid);
      case Holding(_, _, _, _) => HoldingGrows(s, mv.tid);
      case Clearing(_, _) => TicketGrows(s, mv.tid);
    }
  }

  lemma {:induction false} RunGrows<T>(s: State<T>, moves: seq<Move<T>>, i: nat, j: nat)
    requires Inv(s) && i <= j <= |moves|
    ensures Grows(At(s, moves, i), At(s, moves, j))
    decreases j
  {
    if i < j {
      RunGrows(s, moves, i, j - 1);
      AtNext(s, moves, j - 1);
      AtInv(s, moves, j - 1);
      NextGrows(At(s, moves, j - 1), moves[j - 1]);
    }
  }

  // Each ticket is used once.

  /** What move mv does in state s to a ticket: nothing, or one of these. */
  datatype Event = Nothing | Draws(side: Side, ticket: int) | Delivers(ticket: int) | Commits(side: Side, ticket: int)

  function EventOf<T>(s: State<T>, mv: Move<T>): Event
    requires s.WellFormed()
  {
    if mv.tid == 0 || mv.Call? then Nothing
    else match s.PcOf(mv.tid)
      case Ready(want, rec) =>
        if rec != NO_RECORD && s.ring.Record(want.Side())[rec] >= 0 then Nothing
        else Draws(want.Side(), s.ring.Counter(want.Side()))
      case Holding(want, _, k, stage) =>
        if stage.Accessing? && want.Pop? then Delivers(k)
        else if stage.Accessed? && want.Push? then Commits(Write, k)
        else if stage.Destroyed? then Commits(Read, k)
        else Nothing
      case _ => Nothing
  }

  /** The state after an event shows it, the state before does not. */
  lemma EventShows<T>(s: State<T>, mv: Move<T>)
    requires Inv(s)
    ensures var s' := Next(s, mv);
      match EventOf(s, mv)
      case Nothing => true
      case Draws(side, k) => s.ring.Counter(side) == k && s'.ring.Counter(side) == k + 1
      case Delivers(k) => k !in s.delivered && k in s'.delivered
      case Commits(side, k) => 0 <= k < s.ring.Counter(side) && k !in s.Committed(side) && k in s'.Committed(side)
  {
    var t := mv.tid;
    if mv.Go? && t != 0 && s.PcOf(t).Holding? {
      var pc := s.PcOf(t);
      assert GuestOk(s, t) && ThreadTicketOk(s, pc.want.Side(), t);
      if pc.stage.Inside() {
        GrantMeans(s, pc.want.Side(), pc.idx);
      }
    }
  }

  /** No ticket is drawn, delivered or committed twice on its side, in any run. */
  lemma NoTicketTwice<T(!new)>(s: State<T>, moves: seq<Move<T>>, i: nat, j: nat)
    requires Reachable(s) && s.WellFormed() && i < j < |moves|
    requires EventOf(At(s, moves, i), moves[i]) != Nothing
    ensures EventOf(At(s, moves, i), moves[i]) != EventOf(At(s, moves, j), moves[j])
  {
    hide Reachable, Run, Next, Inv, EventOf;
    ReachableInv(s);
    AtInv(s, moves, i);
    AtInv(s, moves, j);
    AtNext(s, moves, i);
    RunGrows(s, moves, i + 1, j);
    EventShows(At(s, moves, i), moves[i]);
    EventShows(At(s, moves, j), moves[j]);
  }

  /** A ticket committed before another is drawn on the same side is the smaller one. */
  lemma CommitBeforeDraw<T(!new)>(s: State<T>, moves: seq<Move<T>>, i: nat, j: nat, side: Side, a: int, b: int)
    requires Reachable(s) && s.WellFormed() && i < j < |moves|
    requires EventOf(At(s, moves, i), moves[i]) == Commits(side, a)
    requires EventOf(At(s, moves, j), moves[j]) == Draws(side, b)
    ensures a < b
  {
    hide Reachable, Run, Next, Inv, EventOf;
    ReachableInv(s);
    AtInv(s, moves, i);
    AtInv(s, moves, j);
    RunGrows(s, moves, i, j);
    EventShows(At(s, moves, i), moves[i]);
    EventShows(At(s, moves, j), moves[j]);
  }
}
