/** The inductive invariant of the multi-producer multi-consumer ring, and its preservation by every move. */
module MpmcInvariant {
  import opened MpmcModel
  import opened Modular

  // The thread table.

  /** The i-th place that thread t looks at in a table of m entries. */
  function Place(t: nat, i: nat, m: nat): nat
    requires m > 0
  {
    (t + i) % m
  }

  /** How many places thread t looks at before entry c. */
  function Offset(t: nat, c: nat, m: nat): nat
    requires m > 0
  {
    (c - t) % m
  }

  /** The first i places of thread t are taken by other threads. */
  ghost predicate TakenByOthers<T>(s: State<T>, t: nat, i: int)
    requires s.WellFormed()
  {
    forall x: nat | x < i :: s.ring.tids[Place(t, x, s.M())] != 0 && s.ring.tids[Place(t, x, s.M())] != t
  }

  ghost predicate ProbeOk<T>(s: State<T>, t: nat)
    requires s.WellFormed()
  {
    match s.PcOf(t)
    case Idle => true
    case Probing(_, cur, cnt) =>
      cnt <= s.M() && cur == Place(t, s.M() - cnt, s.M()) && TakenByOthers(s, t, s.M() - cnt)
    case Claiming(_, cur, cnt) =>
      && cnt < s.M() && cur == Place(t, s.M() - cnt - 1, s.M()) && TakenByOthers(s, t, s.M() - cnt - 1)
      && s.ring.tids[cur] != t
    case Ready(_, rec) => rec == NO_RECORD || s.ring.tids[rec] == t
    case Holding(_, rec, _, _) => rec == NO_RECORD || s.ring.tids[rec] == t
    case Clearing(_, rec) => s.ring.tids[rec] == t
  }

  /** Every place on the probe path of the thread stored at entry c, before c, is occupied. */
  ghost predicate PathOccupied<T>(s: State<T>, c: nat)
    requires s.WellFormed() && c < s.M()
  {
    var t := s.ring.tids[c];
    forall x: nat | x < Offset(t, c, s.M()) :: s.ring.tids[Place(t, x, s.M())] != 0
  }

  ghost predicate TableInv<T>(s: State<T>)
    requires s.WellFormed()
  {
    && 0 !in s.pcs
    && (forall c, d | 0 <= c < s.M() && 0 <= d < s.M() && s.ring.tids[c] == s.ring.tids[d] != 0 :: c == d)
    && (forall c | 0 <= c < s.M() && s.ring.tids[c] != 0 :: PathOccupied(s, c))
    && (forall t | t in s.pcs :: ProbeOk(s, t))
  }

  // Tickets.

  function HolderOf(t: nat, rec: int): Holder {
    if rec < 0 then InCall(t) else InRecord(rec)
  }

  /** The owner of record c has committed its ticket of this side and is about to reset the record. */
  predicate ResetPending<T>(s: State<T>, side: Side, c: nat)
    requires s.WellFormed() && c < s.M()
  {
    var pc := s.PcOf(s.ring.tids[c]);
    pc.Clearing? && pc.rec == c && pc.want.Side() == side
  }

  /** Holder h has ticket k of this side and has not committed it. */
  predicate Holds<T>(s: State<T>, side: Side, h: Holder, k: int)
    requires s.WellFormed()
  {
    match h
    case InCall(t) =>
      var pc := s.PcOf(t);
      pc.Holding? && pc.rec == NO_RECORD && pc.want.Side() == side && pc.idx == k
    case InRecord(c) =>
      c < s.M() && s.ring.Record(side)[c] == k >= 0 && !ResetPending(s, side, c)
  }

  ghost predicate OpenTicket<T>(s: State<T>, side: Side, h: Holder, k: int) {
    0 <= k < |s.Draws(side)| && k !in s.Committed(side) && s.Draws(side)[k] == h
  }

  ghost predicate ThreadTicketOk<T>(s: State<T>, side: Side, t: nat)
    requires s.WellFormed()
  {
    var pc := s.PcOf(t);
    pc.Holding? && pc.want.Side() == side ==>
      && OpenTicket(s, side, HolderOf(t, pc.rec), pc.idx)
      && (pc.rec != NO_RECORD ==> s.ring.Record(side)[pc.rec] == pc.idx)
  }

  ghost predicate RecordOk<T>(s: State<T>, side: Side, c: nat)
    requires s.WellFormed() && c < s.M()
  {
    var k := s.ring.Record(side)[c];
    && k >= -1
    && (s.ring.tids[c] == 0 ==> k == -1)
    && (k >= 0 && !ResetPending(s, side, c) ==> OpenTicket(s, side, InRecord(c), k))
  }

  ghost predicate TicketInv<T>(s: State<T>, side: Side)
    requires s.WellFormed()
  {
    && |s.Draws(side)| == s.ring.Counter(side)
    && (forall t | t in s.pcs :: ThreadTicketOk(s, side, t))
    && (forall c | 0 <= c < s.M() :: RecordOk(s, side, c))
    && (forall k | k in s.Committed(side) :: 0 <= k < |s.Draws(side)|)
    && (forall k | 0 <= k < |s.Draws(side)| && k !in s.Committed(side) :: Holds(s, side, s.Draws(side)[k], k))
  }

  // The state word.

  /** The ticket that a cell's word is about. */
  function Tag(word: int): nat {
    if word >= 0 then word else Complement(word)
  }

  function NextRead<T>(g: Ring<T>, j: nat): nat
    requires j < |g.stat|
  {
    Tag(g.stat[j])
  }

  function NextWrite<T>(g: Ring<T>, j: nat): nat
    requires j < |g.stat|
  {
    Tag(g.stat[j]) + if g.stat[j] < 0 then |g.stat| else 0
  }

  ghost predicate LapInv<T>(s: State<T>)
    requires s.WellFormed()
  {
    && (forall j | 0 <= j < s.N() :: Tag(s.ring.stat[j]) % s.N() == j)
    && (forall k :: k in s.pushed <==> 0 <= k < NextWrite(s.ring, s.ring.Slot(k)))
    && (forall k :: k in s.popped <==> 0 <= k < NextRead(s.ring, s.ring.Slot(k)))
  }

  // Cells and the threads inside them.

  ghost predicate GuestOk<T>(s: State<T>, t: nat)
    requires s.WellFormed()
  {
    var pc := s.PcOf(t);
    pc.Holding? && pc.stage.Inside() ==>
      && s.guest[s.ring.Slot(pc.idx)] == t
      && s.ring.Grants(pc.want.Side(), pc.idx)
      && AccessOk(s, pc.want, pc.idx, pc.stage)
  }

  ghost predicate AccessOk<T>(s: State<T>, want: Want<T>, k: int, stage: Stage<T>)
    requires s.WellFormed()
  {
    var d := s.ring.data[s.ring.Slot(k)];
    if want.Push? then
      match stage
      case Checking => true
      case Granted => d == Raw
      case Accessing(_) => d == Torn
      case Accessed => d == Live(want.value, k)
      case Destroyed => false
    else
      k in s.pushed &&
      match stage
      case Checking => true
      case Granted => d == Live(s.pushed[k], k)
      case Accessing(seen) => seen == d == Live(s.pushed[k], k)
      case Accessed => d == Husk(k) && k in s.delivered
      case Destroyed => d == Raw && k in s.delivered
  }

  ghost predicate CellOk<T>(s: State<T>, j: nat)
    requires s.WellFormed() && j < s.N()
  {
    if s.guest[j] != 0 then
      var pc := s.PcOf(s.guest[j]);
      pc.Holding? && pc.stage.Inside() && s.ring.Slot(pc.idx) == j
    else if s.ring.stat[j] >= 0 then s.ring.data[j] == Raw
    else
      var k := Tag(s.ring.stat[j]);
      k in s.pushed && s.ring.data[j] == Live(s.pushed[k], k)
  }

  ghost predicate CellInv<T>(s: State<T>)
    requires s.WellFormed()
  {
    && (forall t | t in s.pcs :: GuestOk(s, t))
    && (forall j | 0 <= j < s.N() :: CellOk(s, j))
  }

  // Deliveries and object lifetimes.

  ghost predicate DeliveryInv<T>(s: State<T>)
    requires s.WellFormed()
  {
    && s.popped <= s.delivered.Keys
    && (forall k | k in s.delivered ::
          && k in s.pushed && s.delivered[k] == Live(s.pushed[k], k)
          && (k in s.popped || (s.ring.Grants(Read, k) && !s.ring.data[s.ring.Slot(k)].Live?)))
  }

  ghost predicate LifeOk<T>(s: State<T>, k: int)
    requires s.WellFormed()
  {
    var alive := if s.ring.data[s.ring.Slot(k)].IsObject(k) then 1 else 0;
    && s.built[k] == (if k in s.pushed || alive == 1 then 1 else 0)
    && s.built[k] == s.freed[k] + alive
  }

  ghost predicate LifeInv<T>(s: State<T>)
    requires s.WellFormed()
  {
    forall k :: LifeOk(s, k)
  }

  ghost predicate Inv<T>(s: State<T>) {
    && s.WellFormed()
    && TableInv(s)
    && TicketInv(s, Write) && TicketInv(s, Read)
    && LapInv(s) && CellInv(s) && DeliveryInv(s) && LifeInv(s)
  }

  // What a step with a ticket in hand leaves alone.

  /** The thread keeps its ticket and record, or is done with the call. */
  ghost predicate SameJob<T>(pc: Pc<T>, pc': Pc<T>)
    requires pc.Holding?
  {
    match pc'
    case Idle => true
    case Holding(want, rec, idx, _) => want == pc.want && rec == pc.rec && idx == pc.idx
    case Clearing(want, rec) => want == pc.want && rec == pc.rec
    case _ => false
  }

  /** No counter, record, table entry or draw has changed, and thread t is still on the same job. */
  ghost predicate JobFrame<T>(s: State<T>, s': State<T>, t: nat)
    requires s.PcOf(t).Holding?
  {
    && s'.ring.tids == s.ring.tids
    && s'.ring.writeRec == s.ring.writeRec && s'.ring.readRec == s.ring.readRec
    && s'.ring.writeIdx == s.ring.writeIdx && s'.ring.readIdx == s.ring.readIdx
    && s'.writeDraws == s.writeDraws && s'.readDraws == s.readDraws
    && s'.pcs == s.pcs[t := s'.PcOf(t)] && SameJob(s.PcOf(t), s'.PcOf(t))
  }

  lemma CheckFrame<T>(s: State<T>, t: nat)
    requires s.WellFormed() && s.PcOf(t).Holding? && s.PcOf(t).stage.Checking?
    ensures JobFrame(s, StepCheck(s, t), t)
  {
  }

  lemma OpenFrame<T>(s: State<T>, t: nat)
    requires s.WellFormed() && s.PcOf(t).Holding? && s.PcOf(t).stage.Granted?
    ensures JobFrame(s, StepOpen(s, t), t)
  {
  }

  lemma CloseFrame<T>(s: State<T>, t: nat)
    requires s.WellFormed() && s.PcOf(t).Holding? && s.PcOf(t).stage.Accessing?
    ensures JobFrame(s, StepClose(s, t), t)
  {
  }

  lemma AfterFrame<T>(s: State<T>, t: nat)
    requires s.WellFormed() && s.PcOf(t).Holding? && s.PcOf(t).stage.Accessed?
    ensures JobFrame(s, StepAfter(s, t), t)
  {
  }

  lemma ReleaseFrame<T>(s: State<T>, t: nat)
    requires s.WellFormed() && s.PcOf(t).Holding? && s.PcOf(t).stage.Destroyed?
    ensures JobFrame(s, StepRelease(s, t), t)
  {
  }

  lemma HoldingFrame<T>(s: State<T>, t: nat)
    requires s.WellFormed() && s.PcOf(t).Holding?
    ensures JobFrame(s, Step(s, t), t)
  {
    match s.PcOf(t).stage
    case Checking => CheckFrame(s, t);
    case Granted => OpenFrame(s, t);
    case Accessing(_) => CloseFrame(s, t);
    case Accessed => AfterFrame(s, t);
    case Destroyed => ReleaseFrame(s, t);
  }

  // The invariant holds at the start.

  lemma SlotAtMost(k: nat, n: nat)
    requires n > 0
    ensures k % n <= k
  {
    if k < n {
      DivisionIsUnique(k, n, 0, k);
    }
  }

  lemma InitialLaps<T>(size: nat, thrSize: nat)
    requires size > 0 && thrSize > 0
    ensures LapInv(Initial<T>(size, thrSize))
  {
    var s := Initial<T>(size, thrSize);
    forall j: nat | j < size
      ensures Tag(s.ring.stat[j]) % size == j
    {
      DivisionIsUnique(j, size, 0, j);
    }
    forall k: int
      ensures k in s.pushed <==> 0 <= k < NextWrite(s.ring, s.ring.Slot(k))
      ensures k in s.popped <==> 0 <= k < NextRead(s.ring, s.ring.Slot(k))
    {
      if k >= 0 {
        SlotAtMost(k, size);
      }
    }
  }

  lemma InitialInv<T>(size: nat, thrSize: nat)
    requires size > 0 && thrSize > 0
    ensures Inv(Initial<T>(size, thrSize))
  {
    var s := Initial<T>(size, thrSize);
    InitialLaps<T>(size, thrSize);
    assert TableInv(s);
    assert TicketInv(s, Write) && TicketInv(s, Read);
    assert CellInv(s);
    assert DeliveryInv(s);
    assert LifeInv(s);
  }
}
