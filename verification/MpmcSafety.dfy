/** What holds in every reachable state of the multi-producer multi-consumer ring. */
module MpmcSafety {
  import opened MpmcModel
  import opened MpmcInvariant
  import opened MpmcTable
  import opened MpmcTickets
  import opened MpmcCells

  lemma CheckKeepsRest<T>(s: State<T>, s': State<T>, t: nat)
    requires Inv(s) && t != 0 && s.PcOf(t).Holding? && s.PcOf(t).stage.Checking? && s' == StepCheck(s, t)
    ensures CellInv(s') && LapInv(s') && DeliveryInv(s') && LifeInv(s')
  {
    CheckKeepsCells(s, t);
    SameCells(s, s');
  }

  lemma HoldingKeepsRest<T>(s: State<T>, s': State<T>, t: nat)
    requires Inv(s) && t != 0 && s.PcOf(t).Holding? && s' == Step(s, t)
    ensures CellInv(s') && LapInv(s') && DeliveryInv(s') && LifeInv(s')
  {
    match s.PcOf(t).stage
    case Checking => CheckKeepsRest(s, s', t);
    case Granted => OpenKeepsCells(s, t); OpenKeepsLogs(s, t);
    case Accessing(_) => CloseKeepsCells(s, t); CloseKeepsLogs(s, t);
    case Accessed => AfterKeepsCells(s, t); AfterKeepsLogs(s, t);
    case Destroyed => ReleaseKeepsCells(s, t); ReleaseKeepsLogs(s, t);
  }

  /** Thread t has moved outside the cells: no cell, guest or commit log has changed. */
  ghost predicate Quiet<T>(s: State<T>, s': State<T>, t: nat) {
    && s'.pcs == s.pcs[t := s'.PcOf(t)] && s'.guest == s.guest
    && (s'.PcOf(t).Holding? ==> s'.PcOf(t).stage.Checking?)
    && s'.ring.stat == s.ring.stat && s'.ring.data == s.ring.data
    && s'.pushed == s.pushed && s'.popped == s.popped && s'.delivered == s.delivered
    && s'.built == s.built && s'.freed == s.freed
  }

  lemma ProbeIsQuiet<T>(s: State<T>, t: nat)
    requires s.WellFormed() && s.PcOf(t).Probing?
    ensures Quiet(s, StepProbe(s, t), t)
  {
  }

  lemma ClaimIsQuiet<T>(s: State<T>, t: nat)
    requires s.WellFormed() && s.PcOf(t).Claiming?
    ensures Quiet(s, StepClaim(s, t), t)
  {
  }

  lemma ReadyIsQuiet<T>(s: State<T>, t: nat)
    requires s.WellFormed() && s.PcOf(t).Ready?
    ensures Quiet(s, StepReady(s, t), t)
  {
  }

  lemma ClearIsQuiet<T>(s: State<T>, t: nat)
    requires s.WellFormed() && s.PcOf(t).Clearing?
    ensures Quiet(s, StepClear(s, t), t)
  {
  }

  lemma QuietFrame<T>(s: State<T>, t: nat)
    requires s.WellFormed() && !s.PcOf(t).Holding? && !s.PcOf(t).Idle?
    ensures Quiet(s, Step(s, t), t)
  {
    match s.PcOf(t)
    case Probing(_, _, _) => ProbeIsQuiet(s, t);
    case Claiming(_, _, _) => ClaimIsQuiet(s, t);
    case Ready(_, _) => ReadyIsQuiet(s, t);
    case Clearing(_, _) => ClearIsQuiet(s, t);
  }

  lemma QuietKeepsRest<T>(s: State<T>, s': State<T>, t: nat)
    requires Inv(s) && t != 0 && !s.PcOf(t).Holding? && !s.PcOf(t).Idle? && s' == Step(s, t)
    ensures CellInv(s') && LapInv(s') && DeliveryInv(s') && LifeInv(s')
  {
    QuietFrame(s, t);
    QuietKeepsCells(s, s', t);
    SameCells(s, s');
  }

  lemma StepKeepsInv<T>(s: State<T>, s': State<T>, t: nat)
    requires Inv(s) && t != 0 && s' == Step(s, t)
    ensures Inv(s')
  {
    StepKeepsTable(s, t);
    StepKeepsTickets(s, t, Write);
    StepKeepsTickets(s, t, Read);
    if s.PcOf(t).Holding? {
      HoldingKeepsRest(s, s', t);
    } else if !s.PcOf(t).Idle? {
      QuietKeepsRest(s, s', t);
    }
  }

  lemma BeginKeepsInv<T>(s: State<T>, s': State<T>, t: nat, want: Want<T>, blocking: bool)
    requires Inv(s) && t != 0 && s.PcOf(t).Idle? && s' == Begin(s, t, want, blocking)
    ensures Inv(s')
  {
    BeginKeepsTable(s, t, want, blocking);
    BeginKeepsTickets(s, t, want, blocking, Write);
    BeginKeepsTickets(s, t, want, blocking, Read);
    QuietKeepsCells(s, s', t);
    SameCells(s, s');
  }

  lemma NextKeepsInv<T>(s: State<T>, mv: Move<T>)
    requires Inv(s)
    ensures Inv(Next(s, mv))
  {
    if mv.tid != 0 {
      if mv.Go? {
        StepKeepsInv(s, Step(s, mv.tid), mv.tid);
      } else if s.PcOf(mv.tid).Idle? {
        BeginKeepsInv(s, Begin(s, mv.tid, mv.want, mv.blocking), mv.tid, mv.want, mv.blocking);
      }
    }
  }

  /** The invariant holds after every interleaving of any number of threads. */
  lemma {:induction false} RunKeepsInv<T>(s: State<T>, moves: seq<Move<T>>)
    requires Inv(s)
    ensures Inv(Run(s, moves))
    decreases |moves|
  {
    if moves != [] {
      RunKeepsInv(s, moves[..|moves| - 1]);
      NextKeepsInv(Run(s, moves[..|moves| - 1]), moves[|moves| - 1]);
    }
  }

  ghost predicate Reachable<T(!new)>(s: State<T>) {
    exists size: nat, thrSize: nat, moves: seq<Move<T>> ::
      size > 0 && thrSize > 0 && s == Run(Initial(size, thrSize), moves)
  }

  lemma InitialIsReachable<T(!new)>(size: nat, thrSize: nat)
    requires size > 0 && thrSize > 0
    ensures Reachable(Initial<T>(size, thrSize))
  {
    assert Initial<T>(size, thrSize) == Run(Initial(size, thrSize), []);
  }

  lemma ReachableInv<T(!new)>(s: State<T>)
    requires Reachable(s)
    ensures Inv(s)
  {
    var size: nat, thrSize: nat, moves: seq<Move<T>> :|
      size > 0 && thrSize > 0 && s == Run(Initial(size, thrSize), moves);
    InitialInv<T>(size, thrSize);
    RunKeepsInv(Initial(size, thrSize), moves);
  }
}
