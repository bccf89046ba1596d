/**
 First in, first out, across calls. Tickets are ordered by when they were drawn, so a try call that
 resumes a ticket kept by an earlier failed call takes that call's place in the order.
*/
module MpmcOrder {
  import opened MpmcModel
  import opened MpmcInvariant
  import opened MpmcSafety
  import opened MpmcTable
  import opened MpmcRuns

  /** The ticket that thread u's record keeps for this side, or -1. */
  ghost function Kept<T>(s: State<T>, u: nat, side: Side): int
    requires s.WellFormed()
  {
    if c: nat :| c < s.M() && s.ring.tids[c] == u then s.ring.Record(side)[c] else -1
  }

  lemma KeptIs<T>(s: State<T>, u: nat, side: Side, c: nat)
    requires s.WellFormed() && TableInv(s) && u != 0 && c < s.M() && s.ring.tids[c] == u
    ensures Kept(s, u, side) == s.ring.Record(side)[c]
  {
  }

  /** Thread u is inside the call that began with `kept` in its record and `drawn` tickets drawn. */
  ghost predicate InThisCall<T>(s: State<T>, u: nat, want: Want<T>, blocking: bool, kept: int, drawn: nat)
    requires s.WellFormed()
  {
    && drawn <= s.ring.Counter(want.Side())
    && match s.PcOf(u)
       case Idle => false
       case Probing(w, _, _) => w == want && !blocking && Kept(s, u, want.Side()) == kept
       case Claiming(w, _, _) => w == want && !blocking && Kept(s, u, want.Side()) == kept
       case Ready(w, rec) =>
         && w == want && (rec == NO_RECORD <==> blocking)
         && (!blocking ==> Kept(s, u, want.Side()) == kept)
       case Holding(w, rec, k, _) =>
         && w == want && (rec == NO_RECORD <==> blocking)
         && if !blocking && kept >= 0 then k == kept else k >= drawn
       case Clearing(w, _) => w == want
  }

  /** A step of another thread leaves u's record alone. */
  lemma OthersKeepRecord<T>(s: State<T>, s': State<T>, t: nat, u: nat, side: Side)
    requires s.WellFormed() && s'.WellFormed() && TableInv(s) && TableInv(s') && OwnRecords(s, s', t)
    requires u != 0 && t != u
    ensures Kept(s', u, side) == Kept(s, u, side)
  {
    if c: nat :| c < s.M() && s.ring.tids[c] == u {
      KeptIs(s, u, side, c);
      KeptIs(s', u, side, c);
    }
  }

  /** Claiming an empty entry, or nothing at all, leaves a kept ticket kept: an empty entry keeps none. */
  lemma TableStepKeepsRecord<T>(s: State<T>, s': State<T>, u: nat, side: Side)
    requires s.WellFormed() && s'.WellFormed() && TableInv(s) && TableInv(s') && TicketInv(s, side) && u != 0
    requires OwnRecords(s, s', u) && s'.ring.Record(side) == s.ring.Record(side)
    ensures Kept(s', u, side) == Kept(s, u, side)
  {
    if c: nat :| c < s'.M() && s'.ring.tids[c] == u {
      KeptIs(s', u, side, c);
      if s.ring.tids[c] == u {
        KeptIs(s, u, side, c);
      } else {
        assert RecordOk(s, side, c);
        if d: nat :| d < s.M() && s.ring.tids[d] == u {
          assert s'.ring.tids[d] == u;
        }
      }
    }
  }

  lemma OwnProbeStaysInCall<T>(s: State<T>, u: nat, want: Want<T>, blocking: bool, kept: int, drawn: nat)
    requires s.WellFormed() && InThisCall(s, u, want, blocking, kept, drawn) && s.PcOf(u).Probing?
    requires var s' := StepProbe(s, u);
      Kept(s', u, want.Side()) == Kept(s, u, want.Side()) && !s'.PcOf(u).Idle?
    ensures InThisCall(StepProbe(s, u), u, want, blocking, kept, drawn)
  {
  }

  lemma OwnClaimStaysInCall<T>(s: State<T>, u: nat, want: Want<T>, blocking: bool, kept: int, drawn: nat)
    requires s.WellFormed() && InThisCall(s, u, want, blocking, kept, drawn) && s.PcOf(u).Claiming?
    requires var s' := StepClaim(s, u);
      Kept(s', u, want.Side()) == Kept(s, u, want.Side()) && !s'.PcOf(u).Idle?
    ensures InThisCall(StepClaim(s, u), u, want, blocking, kept, drawn)
  {
  }

  lemma OwnReadyStaysInCall<T>(s: State<T>, u: nat, want: Want<T>, blocking: bool, kept: int, drawn: nat)
    requires s.WellFormed() && TableInv(s) && u != 0 && InThisCall(s, u, want, blocking, kept, drawn)
    requires s.PcOf(u).Ready? && ProbeOk(s, u)
    ensures InThisCall(StepReady(s, u), u, want, blocking, kept, drawn)
  {
    if s.PcOf(u).rec != NO_RECORD {
      KeptIs(s, u, want.Side(), s.PcOf(u).rec);
    }
  }

  lemma OwnStepStaysInCall<T>(s: State<T>, u: nat, want: Want<T>, blocking: bool, kept: int, drawn: nat)
    requires Inv(s) && u != 0 && InThisCall(s, u, want, blocking, kept, drawn)
    requires !Step(s, u).PcOf(u).Idle?
    ensures InThisCall(Step(s, u), u, want, blocking, kept, drawn)
  {
    assert ProbeOk(s, u);
    match s.PcOf(u)
    case Idle =>
    case Probing(_, _, _) =>
      StepKeepsTable(s, u);
      StepOwnRecords(s, u);
      TableStepKeepsRecord(s, StepProbe(s, u), u, want.Side());
      OwnProbeStaysInCall(s, u, want, blocking, kept, drawn);
    case Claiming(_, _, _) =>
      StepKeepsTable(s, u);
      StepOwnRecords(s, u);
      TableStepKeepsRecord(s, StepClaim(s, u), u, want.Side());
      OwnClaimStaysInCall(s, u, want, blocking, kept, drawn);
    case Ready(_, _) => OwnReadyStaysInCall(s, u, want, blocking, kept, drawn);
    case Holding(_, _, _, _) => HoldingFrame(s, u);
    case Clearing(_, _) =>
  }

  lemma NextStaysInCall<T>(s: State<T>, mv: Move<T>, u: nat, want: Want<T>, blocking: bool, kept: int, drawn: nat)
    requires Inv(s) && u != 0 && InThisCall(s, u, want, blocking, kept, drawn)
    requires !Next(s, mv).PcOf(u).Idle?
    ensures InThisCall(Next(s, mv), u, want, blocking, kept, drawn)
  {
    var t := mv.tid;
    var s' := Next(s, mv);
    NextKeepsInv(s, mv);
    NextGrows(s, mv);
    if t == 0 {
    } else if t != u {
      if mv.Go? {
        assert ProbeOk(s, t);
        StepOwnRecords(s, t);
      }
      OthersKeepRecord(s, s', t, u, want.Side());
      OthersKeepPc(s, mv, u);
    } else if mv.Go? {
      OwnStepStaysInCall(s, u, want, blocking, kept, drawn);
    }
  }

  /** Thread u starts a call at move c and is in it from then until move j. */
  ghost predicate CallSpans<T>(s: State<T>, moves: seq<Move<T>>, c: nat, j: nat, u: nat, want: Want<T>, blocking: bool)
    requires s.WellFormed()
  {
    && u != 0 && c < j < |moves| && moves[c] == Call(u, want, blocking) && At(s, moves, c).PcOf(u).Idle?
    && forall i: nat | c < i <= j :: !At(s, moves, i).PcOf(u).Idle?
  }

  lemma BeginIsInCall<T>(s: State<T>, u: nat, want: Want<T>, blocking: bool)
    requires s.WellFormed() && TableInv(s) && u != 0 && s.PcOf(u).Idle?
    ensures var s', side := Begin(s, u, want, blocking), want.Side();
      InThisCall(s', u, want, blocking, Kept(s, u, side), s.ring.Counter(side))
  {
    var s', side := Begin(s, u, want, blocking), want.Side();
    BeginKeepsTable(s, u, want, blocking);
    if c: nat :| c < s.M() && s.ring.tids[c] == u {
      KeptIs(s, u, side, c);
      KeptIs(s', u, side, c);
    }
  }

  /** Thread u, at move j of the run, is in the call that it started at move c. */
  ghost predicate InCallSince<T>(
    s: State<T>, moves: seq<Move<T>>, c: nat, j: nat, u: nat, want: Want<T>, blocking: bool)
    requires s.WellFormed() && c <= |moves| && j <= |moves|
  {
    var r, side := At(s, moves, c), want.Side();
    InThisCall(At(s, moves, j), u, want, blocking, Kept(r, u, side), r.ring.Counter(side))
  }

  lemma CallStarts<T>(s: State<T>, moves: seq<Move<T>>, c: nat, u: nat, want: Want<T>, blocking: bool)
    requires s.WellFormed() && u != 0 && c < |moves| && moves[c] == Call(u, want, blocking)
    requires TableInv(At(s, moves, c)) && At(s, moves, c).PcOf(u).Idle?
    ensures InCallSince(s, moves, c, c + 1, u, want, blocking)
  {
    AtNext(s, moves, c);
    BeginIsInCall(At(s, moves, c), u, want, blocking);
  }

  lemma CallAdvances<T>(s: State<T>, moves: seq<Move<T>>, c: nat, j: nat, u: nat, want: Want<T>, blocking: bool)
    requires s.WellFormed() && u != 0 && c <= j < |moves| && Inv(At(s, moves, j))
    requires InCallSince(s, moves, c, j, u, want, blocking) && !At(s, moves, j + 1).PcOf(u).Idle?
    ensures InCallSince(s, moves, c, j + 1, u, want, blocking)
  {
    var r, side := At(s, moves, c), want.Side();
    AtNext(s, moves, j);
    NextStaysInCall(At(s, moves, j), moves[j], u, want, blocking, Kept(r, u, side), r.ring.Counter(side));
  }

  lemma {:induction false} CallStaysInCall<T>(
    s: State<T>, moves: seq<Move<T>>, c: nat, j: nat, u: nat, want: Want<T>, blocking: bool)
    requires Inv(s) && CallSpans(s, moves, c, j, u, want, blocking)
    ensures InCallSince(s, moves, c, j, u, want, blocking)
    decreases j
  {
    hide Next, Run, TicketInv, LapInv, CellInv, DeliveryInv, LifeInv;
    AtInv(s, moves, j - 1);
    if j == c + 1 {
      CallStarts(s, moves, c, u, want, blocking);
    } else {
      CallStaysInCall(s, moves, c, j - 1, u, want, blocking);
      CallAdvances(s, moves, c, j - 1, u, want, blocking);
    }
  }

  /** Which ticket a call commits: the one kept from a failed try, else one drawn during the call. */
  lemma TicketOfCall<T(!new)>(
    s: State<T>, moves: seq<Move<T>>, c: nat, j: nat, u: nat, want: Want<T>, blocking: bool, b: int)
    requires Reachable(s) && s.WellFormed() && CallSpans(s, moves, c, j, u, want, blocking) && moves[j] == Go(u)
    requires EventOf(At(s, moves, j), moves[j]) == Commits(want.Side(), b)
    ensures var kept := Kept(At(s, moves, c), u, want.Side());
      if !blocking && kept >= 0 then b == kept else b >= At(s, moves, c).ring.Counter(want.Side())
  {
    hide Reachable;
    ReachableInv(s);
    CallStaysInCall(s, moves, c, j, u, want, blocking);
  }

  /**
   A call whose predecessor of ticket a has already completed comes after it in the order exactly when
   it draws a new ticket, or keeps one that is larger than a.
  */
  lemma OrderOfCalls<T(!new)>(
    s: State<T>, moves: seq<Move<T>>, i: nat, c: nat, j: nat, u: nat, want: Want<T>, blocking: bool, a: int, b: int)
    requires Reachable(s) && s.WellFormed() && i < c
    requires CallSpans(s, moves, c, j, u, want, blocking) && moves[j] == Go(u)
    requires EventOf(At(s, moves, i), moves[i]) == Commits(want.Side(), a)
    requires EventOf(At(s, moves, j), moves[j]) == Commits(want.Side(), b)
    ensures var kept := Kept(At(s, moves, c), u, want.Side());
      a < b <==> blocking || kept < 0 || a < kept
  {
    hide Reachable;
    ReachableInv(s);
    TicketOfCall(s, moves, c, j, u, want, blocking, b);
    AtInv(s, moves, i);
    EventShows(At(s, moves, i), moves[i]);
    RunGrows(s, moves, i, c);
  }
}
