/** The promises of the multi-producer multi-consumer ring, over every reachable state. */
module MpmcTheorems {
  import opened MpmcModel
  import opened MpmcInvariant
  import opened MpmcSafety
  import opened MpmcCells
  import opened Modular
  import opened Counting

  // Cells.

  /** Thread t is between a successful getWritable or getReadable and its commit, on cell j. */
  predicate InsideCell<T>(s: State<T>, t: nat, j: nat)
    requires s.WellFormed()
  {
    s.PcOf(t).Holding? && s.PcOf(t).stage.Inside() && s.ring.Slot(s.PcOf(t).idx) == j
  }

  /** No two threads, writers or readers, are ever inside the same cell. */
  lemma CellExclusion<T(!new)>(s: State<T>, t: nat, u: nat, j: nat)
    requires Reachable(s) && s.WellFormed()
    requires InsideCell(s, t, j) && InsideCell(s, u, j)
    ensures t == u
  {
    ReachableInv(s);
    assert GuestOk(s, t) && GuestOk(s, u);
  }

  /** A reader's data access sees one value from beginning to end, and it is the one that was pushed. */
  lemma ReadIsUndisturbed<T(!new)>(s: State<T>, t: nat)
    requires Reachable(s) && s.WellFormed()
    requires s.PcOf(t).Holding? && s.PcOf(t).stage.Accessing? && s.PcOf(t).want.Pop?
    ensures var k := s.PcOf(t).idx;
      k in s.pushed && s.PcOf(t).stage.seen == s.ring.data[s.ring.Slot(k)] == Live(s.pushed[k], k)
  {
    ReachableInv(s);
    assert GuestOk(s, t);
  }

  /** What the word of cell j says about the tickets of its residue class. */
  lemma LapLaw<T(!new)>(s: State<T>, j: nat)
    requires Reachable(s) && s.WellFormed() && j < s.N()
    ensures var word := s.ring.stat[j]; var k := Tag(word);
      && k % s.N() == j
      && forall i | i >= 0 && s.ring.Slot(i) == j ::
           && (i in s.popped <==> i < k)
           && (i in s.pushed <==> i < k || (word < 0 && i == k))
  {
    ReachableInv(s);
    var k := Tag(s.ring.stat[j]);
    forall i | i >= 0 && s.ring.Slot(i) == j
      ensures i in s.popped <==> i < k
      ensures i in s.pushed <==> i < k || (s.ring.stat[j] < 0 && i == k)
    {
      assert i in s.pushed <==> 0 <= i < NextWrite(s.ring, j);
      assert i in s.popped <==> 0 <= i < NextRead(s.ring, j);
      OnlyOneInLap(i, k, s.N());
    }
  }

  /** A committed write implies that the reader one lap earlier is done with the cell. */
  lemma WriteAfterPreviousLap<T(!new)>(s: State<T>, k: int)
    requires Reachable(s) && s.WellFormed() && k in s.pushed && k >= s.N()
    ensures k - s.N() in s.popped
  {
    ReachableInv(s);
    NextLapSameSlot(k, s.N());
    LapLaw(s, s.ring.Slot(k));
  }

  /** The value delivered to a read ticket is the one committed by the write ticket of the same number. */
  lemma DeliversWhatWasPushed<T(!new)>(s: State<T>, k: int)
    requires Reachable(s) && k in s.delivered
    ensures k in s.pushed && s.delivered[k] == Live(s.pushed[k], k)
    ensures k in s.popped || s.PcOf(s.guest[k % s.N()]).Holding?
  {
    ReachableInv(s);
    var j := s.ring.Slot(k);
    assert CellOk(s, j);
    if k !in s.popped {
      assert s.ring.Grants(Read, k);
      assert Tag(s.ring.stat[j]) == k;
    }
  }

  // Tickets.

  /** Every ticket drawn is either committed or held by exactly one holder, and never both. */
  lemma EveryTicketAccountedFor<T(!new)>(s: State<T>, side: Side, k: int)
    requires Reachable(s) && s.WellFormed() && 0 <= k < s.ring.Counter(side)
    ensures k in s.Committed(side) <==> !exists h :: Holds(s, side, h, k)
    ensures forall h, h' :: Holds(s, side, h, k) && Holds(s, side, h', k) ==> h == h'
  {
    ReachableInv(s);
    forall h | Holds(s, side, h, k)
      ensures h == s.Draws(side)[k] && k !in s.Committed(side)
    {
      HolderDrew(s, side, h, k);
    }
  }

  /** A holder is the one who drew the ticket, and the ticket is open. */
  lemma HolderDrew<T>(s: State<T>, side: Side, h: Holder, k: int)
    requires Inv(s) && Holds(s, side, h, k)
    ensures OpenTicket(s, side, h, k)
  {
    match h
    case InCall(t) => assert ThreadTicketOk(s, side, t);
    case InRecord(c) => assert RecordOk(s, side, c);
  }

  /** A failed try call leaves the shared memory as it was, and its record still holds the ticket. */
  lemma FailedTryKeepsTicket<T(!new)>(s: State<T>, t: nat)
    requires Reachable(s) && s.WellFormed() && t != 0
    requires s.PcOf(t).Holding? && s.PcOf(t).stage.Checking? && s.PcOf(t).rec != NO_RECORD
    requires !s.ring.Grants(s.PcOf(t).want.Side(), s.PcOf(t).idx)
    ensures var s', pc := Step(s, t), s.PcOf(t);
      && s'.PcOf(t).Idle? && s'.ring == s.ring
      && Holds(s', pc.want.Side(), InRecord(pc.rec), pc.idx)
      && s.ring.tids[pc.rec] == t
  {
    ReachableInv(s);
    var pc := s.PcOf(t);
    assert ThreadTicketOk(s, pc.want.Side(), t) && ProbeOk(s, t);
    assert Step(s, t) == StepCheck(s, t);
  }

  // Counting.

  function Size<T>(g: Ring<T>): int {
    g.writeIdx - g.readIdx
  }

  function FullCells<T>(g: Ring<T>): set<int> {
    set j | j in Below(|g.stat|) && g.stat[j] < 0
  }

  ghost function HeldTickets<T>(s: State<T>, side: Side): set<int>
    requires s.WellFormed()
  {
    set k | k in Below(s.ring.Counter(side)) && exists h :: Holds(s, side, h, k)
  }

  lemma HeldOrCommitted<T>(s: State<T>, side: Side, k: int)
    requires Inv(s)
    ensures k in HeldTickets(s, side) <==> k in Below(s.ring.Counter(side)) - s.Committed(side)
  {
    if k in HeldTickets(s, side) {
      var h :| Holds(s, side, h, k);
      HolderDrew(s, side, h, k);
    } else if 0 <= k < s.ring.Counter(side) && k !in s.Committed(side) {
      assert Holds(s, side, s.Draws(side)[k], k);
    }
  }

  lemma HeldAreOpen<T>(s: State<T>, side: Side)
    requires Inv(s)
    ensures HeldTickets(s, side) == Below(s.ring.Counter(side)) - s.Committed(side)
  {
    forall k
      ensures k in HeldTickets(s, side) <==> k in Below(s.ring.Counter(side)) - s.Committed(side)
    {
      HeldOrCommitted(s, side, k);
    }
  }

  lemma HeldPlusCommitted<T>(s: State<T>, side: Side)
    requires Inv(s)
    ensures |HeldTickets(s, side)| + |s.Committed(side)| == s.ring.Counter(side)
  {
    HeldAreOpen(s, side);
    assert s.Committed(side) <= Below(s.ring.Counter(side));
    SplitSize(Below(s.ring.Counter(side)), s.Committed(side));
  }

  /** A ticket is written and unread exactly when its cell's word is its complement. */
  lemma UnreadMeans<T>(s: State<T>, k: int)
    requires Inv(s)
    ensures k in s.pushed && k !in s.popped <==> k >= 0 && s.ring.Grants(Read, k)
    ensures k in s.popped ==> k in s.pushed
  {
    var j := s.ring.Slot(k);
    assert k in s.pushed <==> 0 <= k < NextWrite(s.ring, j);
    assert k in s.popped <==> 0 <= k < NextRead(s.ring, j);
    OnlyOneInLap(k, Tag(s.ring.stat[j]), s.N());
  }

  /** The ticket that a full cell holds. */
  function TicketAt<T>(g: Ring<T>): int -> int {
    j => if 0 <= j < |g.stat| then Tag(g.stat[j]) else 0
  }

  lemma UnreadIsImage<T>(s: State<T>)
    requires Inv(s)
    ensures Image(FullCells(s.ring), TicketAt(s.ring)) == s.pushed.Keys - s.popped
    ensures s.popped <= s.pushed.Keys
  {
    var full, f := FullCells(s.ring), TicketAt(s.ring);
    forall k | k in Image(full, f)
      ensures k in s.pushed.Keys - s.popped
    {
      var j :| j in full && f(j) == k;
      assert k % s.N() == j;
      UnreadMeans(s, k);
    }
    forall k
      ensures k in s.pushed.Keys - s.popped ==> k in Image(full, f)
      ensures k in s.popped ==> k in s.pushed
    {
      UnreadMeans(s, k);
      if k in s.pushed.Keys - s.popped {
        assert s.ring.Slot(k) in full && f(s.ring.Slot(k)) == k;
      }
    }
  }

  lemma TicketsAreDistinct<T>(s: State<T>, x: int, y: int)
    requires Inv(s) && x in FullCells(s.ring) && y in FullCells(s.ring)
    requires TicketAt(s.ring)(x) == TicketAt(s.ring)(y)
    ensures x == y
  {
    assert Tag(s.ring.stat[x]) % s.N() == x && Tag(s.ring.stat[y]) % s.N() == y;
  }

  /** The full cells are, one for one, the tickets that are written and not yet read. */
  lemma FullCellsAreUnread<T>(s: State<T>)
    requires Inv(s)
    ensures |FullCells(s.ring)| == |s.pushed| - |s.popped|
  {
    var full, f := FullCells(s.ring), TicketAt(s.ring);
    forall x, y | x in full && y in full && f(x) == f(y)
      ensures x == y
    {
      TicketsAreDistinct(s, x, y);
    }
    ImageSize(full, f);
    UnreadIsImage(s);
    SplitSize(s.pushed.Keys, s.popped);
  }

  /** size() counts the full cells, plus the write tickets held, minus the read tickets held. */
  lemma SizeCounts<T(!new)>(s: State<T>)
    requires Reachable(s) && s.WellFormed()
    ensures Size(s.ring) == |FullCells(s.ring)| + |HeldTickets(s, Write)| - |HeldTickets(s, Read)|
    ensures 0 <= |FullCells(s.ring)| <= s.N()
  {
    ReachableInv(s);
    HeldPlusCommitted(s, Write);
    HeldPlusCommitted(s, Read);
    FullCellsAreUnread(s);
    SubsetSize(FullCells(s.ring), Below(s.N()));
  }

  /** With no ticket held, the hints empty() and full() are exact. */
  lemma HintsAreExactWhenIdle<T(!new)>(s: State<T>)
    requires Reachable(s) && s.WellFormed()
    requires HeldTickets(s, Write) == {} && HeldTickets(s, Read) == {}
    ensures Size(s.ring) <= 0 <==> forall j | 0 <= j < s.N() :: s.ring.stat[j] >= 0
    ensures Size(s.ring) >= s.N() <==> forall j | 0 <= j < s.N() :: s.ring.stat[j] < 0
  {
    SizeCounts(s);
    var full := FullCells(s.ring);
    SubsetSize(full, Below(s.N()));
    assert full == {} <==> forall j | 0 <= j < s.N() :: s.ring.stat[j] >= 0 by {
      assert forall j | 0 <= j < s.N() :: j in full <==> s.ring.stat[j] < 0;
    }
    assert full == Below(s.N()) <==> forall j | 0 <= j < s.N() :: s.ring.stat[j] < 0 by {
      assert forall j | 0 <= j < s.N() :: j in full <==> s.ring.stat[j] < 0;
    }
  }
}
