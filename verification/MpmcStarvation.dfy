/**
 Which tickets are ever committed in an endless run that goes on drawing new ones: exactly those whose
 turn the other side lets come.
*/
module MpmcStarvation {
  import opened MpmcModel
  import opened MpmcInvariant
  import opened MpmcSafety
  import opened MpmcTheorems
  import opened MpmcThreads
  import opened MpmcProgress
  import opened MpmcLiveness

  /** In the endless run, ticket b of this side is drawn some day. */
  ghost predicate Drawn<T(!new)>(s: State<T>, f: nat -> Move<T>, side: Side, b: int)
    requires s.WellFormed()
  {
    exists n: nat :: b < Later(s, f, n).ring.Counter(side)
  }

  /** In the endless run, ticket k of this side is committed some day. */
  ghost predicate GetsThrough<T(!new)>(s: State<T>, f: nat -> Move<T>, side: Side, k: nat)
    requires s.WellFormed()
  {
    exists n: nat :: k in Later(s, f, n).Committed(side)
  }

  /** Whoever has kept a ticket tries again, at any time. */
  ghost predicate NobodyGivesUp<T(!new)>(s: State<T>, f: nat -> Move<T>)
    requires s.WellFormed()
  {
    forall n: nat :: AllTakenUp(s, f, n)
  }

  /** A ticket that is drawn, and whose cell grants it, is committed. */
  lemma GrantedGetsThrough<T(!new)>(s: State<T>, f: nat -> Move<T>, n: nat, side: Side, k: nat)
    requires s.WellFormed() && Inv(s) && Fair(f) && NobodyGivesUp(s, f)
    requires Later(s, f, n).ring.Grants(side, k) && Open(Later(s, f, n), side, k)
    ensures GetsThrough(s, f, side, k)
  {
    hide Next, Inv;
    LaterInv(s, f, n);
    HeldIsOpen(Later(s, f, n), side, k);
    assert AllTakenUp(s, f, n) && TakenUp(s, f, n, side, k);
    var m: nat :| n <= m && InHand(Later(s, f, m), side, k);
    LaterInv(s, f, m);
    LaterGrants(s, f, n, m, side, k);
    InHandIsOpen(Later(s, f, m), side, k);
    InHandArrives(s, f, m, side, k);
  }

  lemma InHandArrives<T(!new)>(s: State<T>, f: nat -> Move<T>, m: nat, side: Side, k: nat)
    requires s.WellFormed() && Inv(s) && Fair(f)
    requires Later(s, f, m).ring.Grants(side, k) && InHand(Later(s, f, m), side, k)
    ensures GetsThrough(s, f, side, k)
  {
    hide Next;
    var r := Later(s, f, m);
    LaterInv(s, f, m);
    var t :| t in r.pcs && r.pcs[t].Holding? && r.pcs[t].want.Side() == side && r.pcs[t].idx == k;
    var end := Arrives(s, f, m, t, side, k);
  }

  /** Once a write ticket is drawn and the read ticket one lap back is committed, it gets through. */
  lemma WriteGetsThrough<T(!new)>(s: State<T>, f: nat -> Move<T>, k: nat)
    requires s.WellFormed() && Inv(s) && Fair(f) && NobodyGivesUp(s, f) && Drawn(s, f, Write, k)
    requires k >= s.N() ==> GetsThrough(s, f, Read, k - s.N())
    ensures GetsThrough(s, f, Write, k)
  {
    hide Next, Inv;
    var n: nat :| k < Later(s, f, n).ring.Counter(Write);
    if k >= s.N() {
      var m: nat :| k - s.N() in Later(s, f, m).Committed(Read);
      var last := if m < n then n else m;
      LaterGrows(s, f, n, last);
      LaterGrows(s, f, m, last);
      n := last;
    }
    var r := Later(s, f, n);
    if k !in r.Committed(Write) {
      LaterInv(s, f, n);
      WriterWaitsFor(r, k);
      GrantedGetsThrough(s, f, n, Write, k);
    }
  }

  /** Once a read ticket is drawn and the write ticket of its number is committed, it gets through. */
  lemma ReadGetsThrough<T(!new)>(s: State<T>, f: nat -> Move<T>, k: nat)
    requires s.WellFormed() && Inv(s) && Fair(f) && NobodyGivesUp(s, f) && Drawn(s, f, Read, k)
    requires GetsThrough(s, f, Write, k)
    ensures GetsThrough(s, f, Read, k)
  {
    hide Next, Inv;
    var n: nat :| k < Later(s, f, n).ring.Counter(Read);
    var m: nat :| k in Later(s, f, m).Committed(Write);
    var last := if m < n then n else m;
    LaterGrows(s, f, n, last);
    LaterGrows(s, f, m, last);
    var r := Later(s, f, last);
    if k !in r.Committed(Read) {
      LaterInv(s, f, last);
      UnreadMeans(r, k);
      GrantedGetsThrough(s, f, last, Read, k);
    }
  }

  /** The read ticket that has to be drawn for ticket k of this side to get its turn; negative if none. */
  function ReadNeeded<T>(s: State<T>, side: Side, k: nat): int {
    if side.Write? then k - s.N() else k
  }

  lemma {:induction false} DrawnGetsThrough<T(!new)>(s: State<T>, f: nat -> Move<T>, side: Side, k: nat)
    requires s.WellFormed() && Inv(s) && Fair(f) && NobodyGivesUp(s, f)
    requires Drawn(s, f, Write, k) && Drawn(s, f, Read, ReadNeeded(s, side, k))
    ensures GetsThrough(s, f, side, k)
    decreases k, side.Read?
  {
    hide Next, Inv;
    if side.Read? {
      var n: nat :| k < Later(s, f, n).ring.Counter(Read);
      assert ReadNeeded(s, Write, k) < Later(s, f, n).ring.Counter(Read);
      DrawnGetsThrough(s, f, Write, k);
      ReadGetsThrough(s, f, k);
    } else {
      if k >= s.N() {
        var n: nat :| k < Later(s, f, n).ring.Counter(Write);
        assert k - s.N() < Later(s, f, n).ring.Counter(Write);
        DrawnGetsThrough(s, f, Read, k - s.N());
      }
      WriteGetsThrough(s, f, k);
    }
  }

  /** A committed ticket has been drawn, and so have those that its turn depends on. */
  lemma CommittedWasDrawn<T(!new)>(s: State<T>, side: Side, k: nat)
    requires Reachable(s) && s.WellFormed() && k in s.Committed(side)
    ensures k < s.ring.Counter(Write) && ReadNeeded(s, side, k) < s.ring.Counter(Read)
  {
    ReachableInv(s);
    if side.Read? {
      UnreadMeans(s, k);
    } else if k >= s.N() {
      WriteAfterPreviousLap(s, k);
    }
  }

  /**
   No ticket starves. In an endless run in which every thread goes on taking steps and whoever has kept a
   ticket tries again, write ticket k is committed some day exactly if it is drawn and read ticket k - SIZE
   is drawn; read ticket k, exactly if write ticket k and it are drawn.
  */
  lemma CommittedExactlyWhen<T(!new)>(s: State<T>, f: nat -> Move<T>, side: Side, k: nat)
    requires Reachable(s) && s.WellFormed() && Fair(f) && NobodyGivesUp(s, f)
    ensures GetsThrough(s, f, side, k) <==> Drawn(s, f, Write, k) && Drawn(s, f, Read, ReadNeeded(s, side, k))
  {
    hide Next, Reachable, Inv;
    ReachableInv(s);
    if GetsThrough(s, f, side, k) {
      var n: nat :| k in Later(s, f, n).Committed(side);
      LaterIsReachable(s, f, n);
      CommittedWasDrawn(Later(s, f, n), side, k);
    }
    if Drawn(s, f, Write, k) && Drawn(s, f, Read, ReadNeeded(s, side, k)) {
      DrawnGetsThrough(s, f, side, k);
    }
  }

  // With blocking calls only, nobody can give up.

  lemma {:induction false} LaterTriedByNone<T(!new)>(s: State<T>, f: nat -> Move<T>, n: nat)
    requires s.WellFormed() && Inv(s) && TriersFrom(s, {})
    requires forall i: nat | f(i).Call? :: f(i).blocking
    ensures TriersFrom(Later(s, f, n), {})
  {
    hide Next, Inv, TriersFrom;
    if n > 0 {
      LaterTriedByNone(s, f, n - 1);
      LaterInv(s, f, n - 1);
      NextTriersFrom(Later(s, f, n - 1), f(n - 1), {});
    }
  }

  lemma RecordsAreUnused<T>(s: State<T>, side: Side, c: nat)
    requires Inv(s) && TriersFrom(s, {}) && c < s.M()
    ensures s.ring.Record(side)[c] == -1
  {
    hide LapInv, CellInv, DeliveryInv, LifeInv;
    assert RecordOk(s, side, c);
    assert s.ring.tids[c] == 0;
  }

  lemma HeldIsInHand<T(!new)>(s: State<T>, side: Side, k: int)
    requires s.WellFormed() && Inv(s) && TriersFrom(s, {}) && k in HeldTickets(s, side)
    ensures InHand(s, side, k)
  {
    hide Inv, TriersFrom;
    var h :| Holds(s, side, h, k);
    if h.InRecord? && h.entry < s.M() {
      RecordsAreUnused(s, side, h.entry);
    }
    assert h.InCall? && h.tid in s.pcs;
  }

  /** If all calls are emplace and pop, every ticket held is in the hands of its caller. */
  lemma BlockingCallersNeverGiveUp<T(!new)>(size: nat, thrSize: nat, f: nat -> Move<T>)
    requires size > 0 && thrSize > 0 && forall i: nat | f(i).Call? :: f(i).blocking
    ensures NobodyGivesUp(Initial<T>(size, thrSize), f)
  {
    hide Next, Inv, TriersFrom;
    var s := Initial<T>(size, thrSize);
    InitialInv<T>(size, thrSize);
    assert TriersFrom(s, {}) by { NobodyTriesAtFirst<T>(size, thrSize); }
    forall n: nat
      ensures AllTakenUp(s, f, n)
    {
      LaterInv(s, f, n);
      LaterTriedByNone(s, f, n);
      forall side, k | k in HeldTickets(Later(s, f, n), side)
        ensures InHand(Later(s, f, n), side, k)
      {
        HeldIsInHand(Later(s, f, n), side, k);
      }
      InCallsIsTakenUp(s, f, n);
    }
  }

  lemma NobodyTriesAtFirst<T>(size: nat, thrSize: nat)
    requires size > 0 && thrSize > 0
    ensures TriersFrom(Initial<T>(size, thrSize), {})
  {
  }
}
