/** The ring refines a queue of numbered places, and with no ticket outstanding it is first in, first out. */
module MpmcRefinement {
  import opened MpmcModel
  import opened MpmcInvariant
  import opened MpmcSafety
  import opened MpmcCells
  import opened MpmcTheorems
  import opened MpmcRuns
  import opened Modular
  import Q = TicketQueue

  /** The queue of numbered places that a state of the ring stands for. */
  ghost function Abstract<T>(s: State<T>): Q.Queue<T>
    requires s.WellFormed()
  {
    Q.Queue(s.N(), s.pushed, map k | k in s.delivered && s.delivered[k].Live? :: s.delivered[k].value)
  }

  lemma CloseRefines<T(!new)>(s: State<T>, t: nat)
    requires Inv(s) && t != 0 && s.PcOf(t).Holding? && s.PcOf(t).stage.Accessing?
    ensures Q.Next(Abstract(s), Abstract(StepClose(s, t)))
  {
    var s' := StepClose(s, t);
    var k := s.PcOf(t).idx;
    assert GuestOk(s, t) && ThreadTicketOk(s, s.PcOf(t).want.Side(), t);
    if s.PcOf(t).want.Pop? {
      GrantMeans(s, Read, k);
      assert Abstract(s').taken == Abstract(s).taken[k := s.pushed[k]];
      assert Q.Take(Abstract(s), Abstract(s'), k);
    }
  }

  lemma PreviousLapRead<T>(s: State<T>, k: nat)
    requires Inv(s) && s.ring.Grants(Write, k) && k >= s.N()
    ensures k - s.N() in s.popped && k - s.N() in s.delivered
  {
    NextLapSameSlot(k, s.N());
    assert k - s.N() in s.popped <==> 0 <= k - s.N() < NextRead(s.ring, s.ring.Slot(k - s.N()));
  }

  lemma WriteCommitRefines<T(!new)>(s: State<T>, s': State<T>, k: nat, v: T)
    requires Inv(s) && s'.WellFormed() && s.ring.Grants(Write, k)
    requires s'.N() == s.N() && s'.pushed == s.pushed[k := v] && s'.delivered == s.delivered
    ensures Q.Next(Abstract(s), Abstract(s'))
  {
    hide TableInv, TicketInv, CellInv, LifeInv;
    GrantMeans(s, Write, k);
    if k >= s.N() {
      PreviousLapRead(s, k);
    }
    assert Q.Put(Abstract(s), Abstract(s'), k, v);
  }

  lemma AfterRefines<T(!new)>(s: State<T>, t: nat)
    requires Inv(s) && t != 0 && s.PcOf(t).Holding? && s.PcOf(t).stage.Accessed?
    ensures Q.Next(Abstract(s), Abstract(StepAfter(s, t)))
  {
    var Holding(want, _, k, _) := s.PcOf(t);
    assert GuestOk(s, t) && ThreadTicketOk(s, want.Side(), t);
    if want.Push? {
      WriteCommitRefines(s, StepAfter(s, t), k, want.value);
    }
  }

  /** Every move is a put, a take or no change of the queue. */
  lemma NextRefines<T(!new)>(s: State<T>, mv: Move<T>)
    requires Inv(s)
    ensures Q.Next(Abstract(s), Abstract(Next(s, mv)))
  {
    var t := mv.tid;
    if t != 0 && mv.Go? {
      match s.PcOf(t)
      case Idle =>
      case Holding(_, _, _, Checking) => assert Next(s, mv) == StepCheck(s, t);
      case Holding(_, _, _, Granted) => assert Next(s, mv) == StepOpen(s, t);
      case Holding(_, _, _, Accessing(_)) => CloseRefines(s, t);
      case Holding(_, _, _, Accessed) => AfterRefines(s, t);
      case Holding(_, _, _, Destroyed) => assert Next(s, mv) == StepRelease(s, t);
      case _ => QuietFrame(s, t);
    }
  }

  /** Every run of the ring is, step by step, a run of the queue. */
  lemma RunRefines<T(!new)>(size: nat, thrSize: nat, moves: seq<Move<T>>, i: nat)
    requires size > 0 && thrSize > 0 && i < |moves|
    ensures var s0 := Initial<T>(size, thrSize);
      && Abstract(At(s0, moves, 0)) == Q.Queue(size, map[], map[])
      && Q.Next(Abstract(At(s0, moves, i)), Abstract(At(s0, moves, i + 1)))
  {
    var s0 := Initial<T>(size, thrSize);
    InitialInv<T>(size, thrSize);
    AtInv(s0, moves, i);
    AtNext(s0, moves, i);
    NextRefines(At(s0, moves, i), moves[i]);
  }

  /** So at any time of any run the values pushed and not delivered are at most SIZE. */
  lemma {:induction false} NeverOverfull<T(!new)>(size: nat, thrSize: nat, moves: seq<Move<T>>, i: nat)
    requires size > 0 && thrSize > 0 && i <= |moves|
    ensures var q := Abstract(At(Initial<T>(size, thrSize), moves, i));
      Q.Sound(q) && q.capacity == size && |q.put| <= |q.taken| + size
  {
    hide Abstract, Q.Next, Q.Sound;
    var s0 := Initial<T>(size, thrSize);
    if i == 0 {
      assert At(s0, moves, 0) == s0;
      InitialIsSound<T>(size, thrSize);
    } else {
      NeverOverfull(size, thrSize, moves, i - 1);
      RunRefines(size, thrSize, moves, i - 1);
      Q.NextKeepsSound(Abstract(At(s0, moves, i - 1)), Abstract(At(s0, moves, i)));
    }
    SameCapacity(At(s0, moves, i));
    Q.NeverOverfull(Abstract(At(s0, moves, i)));
  }

  lemma InitialIsSound<T(!new)>(size: nat, thrSize: nat)
    requires size > 0 && thrSize > 0
    ensures Q.Sound(Abstract(Initial<T>(size, thrSize)))
  {
  }

  lemma SameCapacity<T>(s: State<T>)
    requires s.WellFormed()
    ensures Abstract(s).capacity == s.N()
  {
  }

  /** The values pushed, in ticket order, when no write ticket is outstanding. */
  ghost function PushedInOrder<T>(s: State<T>): seq<T>
    requires forall k | 0 <= k < s.ring.writeIdx :: k in s.pushed
  {
    seq(s.ring.writeIdx, k requires 0 <= k < s.ring.writeIdx => s.pushed[k])
  }

  ghost function DeliveredInOrder<T>(s: State<T>): seq<Datum<T>>
    requires forall k | 0 <= k < s.ring.readIdx :: k in s.delivered
  {
    seq(s.ring.readIdx, k requires 0 <= k < s.ring.readIdx => s.delivered[k])
  }

  lemma NothingHeldMeans<T>(s: State<T>, side: Side, k: int)
    requires Inv(s) && HeldTickets(s, side) == {} && 0 <= k < s.ring.Counter(side)
    ensures k in s.Committed(side)
  {
    HeldOrCommitted(s, side, k);
  }

  /** With no ticket outstanding, what was delivered is the front of what was pushed, in order. */
  lemma FirstInFirstOut<T(!new)>(s: State<T>)
    requires Reachable(s) && s.WellFormed()
    requires HeldTickets(s, Write) == {} && HeldTickets(s, Read) == {}
    ensures forall k | 0 <= k < s.ring.writeIdx :: k in s.pushed
    ensures forall k | 0 <= k < s.ring.readIdx :: k in s.delivered
    ensures s.ring.readIdx <= s.ring.writeIdx <= s.ring.readIdx + s.N()
    ensures forall k | 0 <= k < s.ring.readIdx :: DeliveredInOrder(s)[k] == Live(PushedInOrder(s)[k], k)
  {
    hide Reachable, HeldTickets, FullCells, TableInv, TicketInv, LapInv, CellInv, LifeInv;
    SizeCounts(s);
    ReachableInv(s);
    forall k: int | 0 <= k < s.ring.writeIdx
      ensures k in s.pushed
    {
      NothingHeldMeans(s, Write, k);
    }
    forall k: int | 0 <= k < s.ring.readIdx
      ensures k in s.delivered && k in s.pushed && s.delivered[k] == Live(s.pushed[k], k)
    {
      NothingHeldMeans(s, Read, k);
    }
  }
}
