/** Every step keeps the invariant that accounts for all tickets of one side. */
module MpmcTickets {
  import opened MpmcModel
  import opened MpmcInvariant

  /** Only thread t has moved, and no shared record, counter or thread entry has changed. */
  ghost predicate OnlyThread<T>(s: State<T>, s': State<T>, t: nat, side: Side) {
    && s.WellFormed() && s'.WellFormed()
    && s'.ring.tids == s.ring.tids && s'.ring.Record(side) == s.ring.Record(side)
    && s'.ring.Counter(side) == s.ring.Counter(side) && s'.Draws(side) == s.Draws(side)
    && s'.pcs == s.pcs[t := s'.PcOf(t)]
  }

  /** A step after which thread t answers for exactly the tickets it answered for before. */
  lemma SameTickets<T>(s: State<T>, s': State<T>, t: nat, side: Side)
    requires OnlyThread(s, s', t, side) && s'.Committed(side) == s.Committed(side)
    requires TableInv(s) && TicketInv(s, side)
    requires ThreadTicketOk(s', side, t)
    requires forall k :: Holds(s, side, InCall(t), k) ==> Holds(s', side, InCall(t), k)
    requires forall c: nat | c < s.M() && s.ring.tids[c] == t :: ResetPending(s, side, c) == ResetPending(s', side, c)
    ensures TicketInv(s', side)
  {
    forall c: nat | c < s.M()
      ensures ResetPending(s, side, c) == ResetPending(s', side, c)
    {
    }
    forall u | u in s'.pcs
      ensures ThreadTicketOk(s', side, u)
    {
      assert u != t ==> ThreadTicketOk(s, side, u);
    }
    forall c | 0 <= c < s'.M()
      ensures RecordOk(s', side, c)
    {
      assert RecordOk(s, side, c);
    }
    forall k | 0 <= k < |s'.Draws(side)| && k !in s'.Committed(side)
      ensures Holds(s', side, s'.Draws(side)[k], k)
    {
      assert Holds(s, side, s.Draws(side)[k], k);
    }
  }

  /** Thread t commits its ticket. */
  lemma CommitTicket<T>(s: State<T>, s': State<T>, t: nat, side: Side)
    requires OnlyThread(s, s', t, side) && TableInv(s) && TicketInv(s, side)
    requires s.PcOf(t).Holding? && s.PcOf(t).want.Side() == side && ProbeOk(s, t)
    requires s'.Committed(side) == s.Committed(side) + {s.PcOf(t).idx}
    requires s'.PcOf(t) == if s.PcOf(t).rec == NO_RECORD then Idle else Clearing(s.PcOf(t).want, s.PcOf(t).rec)
    ensures TicketInv(s', side)
  {
    var pc := s.PcOf(t);
    var h := HolderOf(t, pc.rec);
    assert ThreadTicketOk(s, side, t);
    forall c: nat | c < s.M() && c != pc.rec
      ensures ResetPending(s, side, c) == ResetPending(s', side, c)
    {
    }
    forall u | u in s'.pcs
      ensures ThreadTicketOk(s', side, u)
    {
      if u != t {
        assert ThreadTicketOk(s, side, u) && ProbeOk(s, u);
      }
    }
    forall c | 0 <= c < s'.M()
      ensures RecordOk(s', side, c)
    {
      assert RecordOk(s, side, c);
    }
    forall k | 0 <= k < |s'.Draws(side)| && k !in s'.Committed(side)
      ensures Holds(s', side, s'.Draws(side)[k], k)
    {
      assert Holds(s, side, s.Draws(side)[k], k);
    }
  }

  /** The record array after a draw: the new ticket goes into the record, if the call has one. */
  function RecordAfterDraw(recs: seq<int>, rec: int, k: int): seq<int>
    requires NO_RECORD <= rec < |recs|
  {
    if rec == NO_RECORD then recs else recs[rec := k]
  }

  ghost predicate Drawn<T>(s: State<T>, s': State<T>, t: nat, side: Side) {
    && s.WellFormed() && s'.WellFormed() && s.PcOf(t).Ready? && s.PcOf(t).want.Side() == side
    && var Ready(want, rec) := s.PcOf(t);
    && s'.ring.tids == s.ring.tids && s'.Committed(side) == s.Committed(side)
    && s'.Draws(side) == s.Draws(side) + [HolderOf(t, rec)]
    && s'.ring.Counter(side) == s.ring.Counter(side) + 1
    && s'.ring.Record(side) == RecordAfterDraw(s.ring.Record(side), rec, s.ring.Counter(side))
    && s'.pcs == s.pcs[t := Holding(want, rec, s.ring.Counter(side), Checking)]
  }

  /** A fresh ticket is drawn, into a record or into the call itself. */
  lemma DrawTicket<T>(s: State<T>, s': State<T>, t: nat, side: Side)
    requires Drawn(s, s', t, side) && TableInv(s) && TicketInv(s, side) && t != 0 && ProbeOk(s, t)
    requires s.PcOf(t).rec == NO_RECORD || s.ring.Record(side)[s.PcOf(t).rec] < 0
    ensures TicketInv(s', side)
  {
    forall c: nat | c < s.M()
      ensures ResetPending(s, side, c) == ResetPending(s', side, c)
    {
    }
    forall u | u in s'.pcs
      ensures ThreadTicketOk(s', side, u)
    {
      if u != t {
        assert ThreadTicketOk(s, side, u) && ProbeOk(s, u);
      }
    }
    forall c | 0 <= c < s'.M()
      ensures RecordOk(s', side, c)
    {
      assert RecordOk(s, side, c);
    }
    forall k | 0 <= k < |s'.Draws(side)| && k !in s'.Committed(side)
      ensures Holds(s', side, s'.Draws(side)[k], k)
    {
      if k < |s.Draws(side)| {
        assert Holds(s, side, s.Draws(side)[k], k);
      }
    }
  }

  lemma ReadyDraws<T>(s: State<T>, t: nat)
    requires s.WellFormed() && s.PcOf(t).Ready?
    requires var side := s.PcOf(t).want.Side();
      s.PcOf(t).rec == NO_RECORD || s.ring.Record(side)[s.PcOf(t).rec] < 0
    ensures Drawn(s, StepReady(s, t), t, s.PcOf(t).want.Side())
  {
  }

  /** The other side, and a call that resumes the ticket of its record, see no ticket move. */
  lemma ReadyElsewhere<T>(s: State<T>, s': State<T>, t: nat, side: Side)
    requires s.WellFormed() && TableInv(s) && TicketInv(s, side) && t != 0 && s.PcOf(t).Ready? && ProbeOk(s, t)
    requires s' == StepReady(s, t)
    requires var Ready(want, rec) := s.PcOf(t);
      want.Side() != side || (rec != NO_RECORD && s.ring.Record(side)[rec] >= 0)
    ensures TicketInv(s', side)
  {
    var Ready(want, rec) := s.PcOf(t);
    if rec != NO_RECORD {
      assert RecordOk(s, side, rec);
    }
    SameTickets(s, s', t, side);
  }

  lemma ReadyKeepsTickets<T>(s: State<T>, t: nat, side: Side)
    requires s.WellFormed() && TableInv(s) && TicketInv(s, side) && t != 0 && s.PcOf(t).Ready? && ProbeOk(s, t)
    ensures TicketInv(StepReady(s, t), side)
  {
    var Ready(want, rec) := s.PcOf(t);
    if want.Side() == side && (rec == NO_RECORD || s.ring.Record(side)[rec] < 0) {
      ReadyDraws(s, t);
      DrawTicket(s, StepReady(s, t), t, side);
    } else {
      ReadyElsewhere(s, StepReady(s, t), t, side);
    }
  }

  lemma ClearKeepsTickets<T>(s: State<T>, t: nat, side: Side)
    requires s.WellFormed() && TableInv(s) && TicketInv(s, side) && t != 0 && s.PcOf(t).Clearing?
    ensures TicketInv(StepClear(s, t), side)
  {
    var s' := StepClear(s, t);
    var Clearing(want, rec) := s.PcOf(t);
    assert ProbeOk(s, t);
    if want.Side() != side {
      SameTickets(s, s', t, side);
    } else {
      forall c: nat | c < s.M() && c != rec
        ensures ResetPending(s, side, c) == ResetPending(s', side, c)
      {
      }
      forall u | u in s'.pcs
        ensures ThreadTicketOk(s', side, u)
      {
        if u != t {
          assert ThreadTicketOk(s, side, u) && ProbeOk(s, u);
        }
      }
      forall c | 0 <= c < s'.M()
        ensures RecordOk(s', side, c)
      {
        assert RecordOk(s, side, c);
      }
      forall k | 0 <= k < |s'.Draws(side)| && k !in s'.Committed(side)
        ensures Holds(s', side, s'.Draws(side)[k], k)
      {
        assert Holds(s, side, s.Draws(side)[k], k);
      }
    }
  }

  /** Only the store to stat commits a ticket, and only the own one. */
  ghost predicate CommitsOwn<T>(s: State<T>, s': State<T>, t: nat, side: Side)
    requires s.PcOf(t).Holding?
  {
    var pc := s.PcOf(t);
    if s'.PcOf(t).Holding? || pc.stage.Checking? || pc.want.Side() != side then
      s'.Committed(side) == s.Committed(side)
    else
      && s'.Committed(side) == s.Committed(side) + {pc.idx}
      && s'.PcOf(t) == if pc.rec == NO_RECORD then Idle else Clearing(pc.want, pc.rec)
  }

  lemma AfterCommits<T>(s: State<T>, t: nat, side: Side)
    requires s.WellFormed() && s.PcOf(t).Holding? && s.PcOf(t).stage.Accessed?
    ensures CommitsOwn(s, StepAfter(s, t), t, side)
  {
  }

  lemma ReleaseCommits<T>(s: State<T>, t: nat, side: Side)
    requires s.WellFormed() && s.PcOf(t).Holding? && s.PcOf(t).stage.Destroyed? && s.PcOf(t).want.Pop?
    ensures CommitsOwn(s, StepRelease(s, t), t, side)
  {
  }

  lemma CommittedBy<T>(s: State<T>, t: nat, side: Side)
    requires s.WellFormed() && s.PcOf(t).Holding?
    requires s.PcOf(t).stage.Destroyed? ==> s.PcOf(t).want.Pop?
    ensures CommitsOwn(s, Step(s, t), t, side)
  {
    match s.PcOf(t).stage
    case Checking => assert CommitsOwn(s, StepCheck(s, t), t, side);
    case Granted => assert CommitsOwn(s, StepOpen(s, t), t, side);
    case Accessing(_) => assert CommitsOwn(s, StepClose(s, t), t, side);
    case Accessed => AfterCommits(s, t, side);
    case Destroyed => ReleaseCommits(s, t, side);
  }

  lemma HoldingKeepsTickets<T>(s: State<T>, s': State<T>, t: nat, side: Side)
    requires s.WellFormed() && TableInv(s) && TicketInv(s, side) && t != 0 && s.PcOf(t).Holding?
    requires s.PcOf(t).stage.Destroyed? ==> s.PcOf(t).want.Pop?
    requires s' == Step(s, t)
    ensures TicketInv(s', side)
  {
    HoldingFrame(s, t);
    CommittedBy(s, t, side);
    assert ProbeOk(s, t) && ThreadTicketOk(s, side, t);
    assert OnlyThread(s, s', t, side);
    if s'.PcOf(t).Holding? || s.PcOf(t).stage.Checking? || s.PcOf(t).want.Side() != side {
      if s.PcOf(t).rec == NO_RECORD && s.PcOf(t).stage.Checking? {
        assert s'.PcOf(t).Holding?;
      }
      SameTickets(s, s', t, side);
    } else {
      CommitTicket(s, s', t, side);
    }
  }

  lemma ProbeKeepsTickets<T>(s: State<T>, t: nat, side: Side)
    requires s.WellFormed() && TableInv(s) && TicketInv(s, side) && t != 0 && s.PcOf(t).Probing?
    ensures TicketInv(StepProbe(s, t), side)
  {
    SameTickets(s, StepProbe(s, t), t, side);
  }

  /** An entry of the table changes from empty to t; its records have no tickets yet. */
  ghost predicate Claimed<T>(s: State<T>, s': State<T>, t: nat, c: nat, side: Side) {
    && s.WellFormed() && s'.WellFormed() && c < s.M() && s.ring.tids[c] == 0
    && s'.ring.tids == s.ring.tids[c := t] && s'.ring.Record(side) == s.ring.Record(side)
    && s'.ring.Counter(side) == s.ring.Counter(side) && s'.Draws(side) == s.Draws(side)
    && s'.Committed(side) == s.Committed(side)
    && s'.pcs == s.pcs[t := s'.PcOf(t)]
    && s.PcOf(t).Claiming? && s'.PcOf(t).Ready?
  }

  lemma ClaimedKeepsTickets<T>(s: State<T>, s': State<T>, t: nat, c: nat, side: Side)
    requires Claimed(s, s', t, c, side) && TableInv(s) && TicketInv(s, side) && t != 0
    ensures TicketInv(s', side)
  {
    forall d: nat | d < s.M()
      ensures ResetPending(s, side, d) == ResetPending(s', side, d)
    {
    }
    forall u | u in s'.pcs
      ensures ThreadTicketOk(s', side, u)
    {
      assert u != t ==> ThreadTicketOk(s, side, u);
    }
    forall d | 0 <= d < s'.M()
      ensures RecordOk(s', side, d)
    {
      assert RecordOk(s, side, d);
    }
    forall k | 0 <= k < |s'.Draws(side)| && k !in s'.Committed(side)
      ensures Holds(s', side, s'.Draws(side)[k], k)
    {
      assert Holds(s, side, s.Draws(side)[k], k);
    }
  }

  lemma ClaimKeepsTickets<T>(s: State<T>, t: nat, side: Side)
    requires s.WellFormed() && TableInv(s) && TicketInv(s, side) && t != 0 && s.PcOf(t).Claiming?
    ensures TicketInv(StepClaim(s, t), side)
  {
    var c := s.PcOf(t).cur;
    if s.ring.tids[c] == 0 {
      ClaimedKeepsTickets(s, StepClaim(s, t), t, c, side);
    } else {
      SameTickets(s, StepClaim(s, t), t, side);
    }
  }

  lemma BeginKeepsTickets<T>(s: State<T>, t: nat, want: Want<T>, blocking: bool, side: Side)
    requires s.WellFormed() && TableInv(s) && TicketInv(s, side) && t != 0 && s.PcOf(t).Idle?
    ensures TicketInv(Begin(s, t, want, blocking), side)
  {
    SameTickets(s, Begin(s, t, want, blocking), t, side);
  }

  lemma StepKeepsTickets<T>(s: State<T>, t: nat, side: Side)
    requires s.WellFormed() && TableInv(s) && CellInv(s) && TicketInv(s, side) && t != 0
    ensures TicketInv(Step(s, t), side)
  {
    match s.PcOf(t)
    case Idle =>
    case Probing(_, _, _) => ProbeKeepsTickets(s, t, side);
    case Claiming(_, _, _) => ClaimKeepsTickets(s, t, side);
    case Ready(_, _) =>
      assert ProbeOk(s, t);
      ReadyKeepsTickets(s, t, side);
    case Holding(_, _, _, _) =>
      assert GuestOk(s, t);
      HoldingKeepsTickets(s, Step(s, t), t, side);
    case Clearing(_, _) => ClearKeepsTickets(s, t, side);
  }
}
