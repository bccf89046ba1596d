/** Every step keeps the laps of the state words, the cells, the deliveries and the object lifetimes. */
module MpmcCells {
  import opened MpmcModel
  import opened MpmcInvariant
  import opened Modular

  // Laps.

  /** Of the tickets of k's slot, exactly k lies in [k, k + n). */
  lemma OnlyOneInLap(x: int, k: int, n: int)
    requires n > 0 && x % n == k % n
    ensures x < k + n <==> x < k || x == k
  {
    if x > k {
      SameSlotGap(k, x, n);
    }
  }

  lemma WriteCommitKeepsLaps<T>(s: State<T>, s': State<T>, k: nat, v: T)
    requires s.WellFormed() && s'.WellFormed() && LapInv(s) && s.ring.Grants(Write, k)
    requires s'.ring.stat == s.ring.stat[s.ring.Slot(k) := Complement(k)]
    requires s'.pushed == s.pushed[k := v] && s'.popped == s.popped
    ensures LapInv(s')
  {
    var n := s.N();
    forall x
      ensures x in s'.pushed <==> 0 <= x < NextWrite(s'.ring, s'.ring.Slot(x))
      ensures x in s'.popped <==> 0 <= x < NextRead(s'.ring, s'.ring.Slot(x))
    {
      assert s'.ring.Slot(x) == s.ring.Slot(x);
      assert x in s.pushed <==> 0 <= x < NextWrite(s.ring, s.ring.Slot(x));
      assert x in s.popped <==> 0 <= x < NextRead(s.ring, s.ring.Slot(x));
      if s.ring.Slot(x) == s.ring.Slot(k) {
        OnlyOneInLap(x, k, n);
      }
    }
  }

  lemma ReadCommitKeepsLaps<T>(s: State<T>, s': State<T>, k: nat)
    requires s.WellFormed() && s'.WellFormed() && LapInv(s) && s.ring.Grants(Read, k)
    requires s'.ring.stat == s.ring.stat[s.ring.Slot(k) := k + s.N()]
    requires s'.pushed == s.pushed && s'.popped == s.popped + {k}
    ensures LapInv(s')
  {
    var n := s.N();
    NextLapSameSlot(k, n);
    forall x
      ensures x in s'.pushed <==> 0 <= x < NextWrite(s'.ring, s'.ring.Slot(x))
      ensures x in s'.popped <==> 0 <= x < NextRead(s'.ring, s'.ring.Slot(x))
    {
      assert s'.ring.Slot(x) == s.ring.Slot(x);
      assert x in s.pushed <==> 0 <= x < NextWrite(s.ring, s.ring.Slot(x));
      assert x in s.popped <==> 0 <= x < NextRead(s.ring, s.ring.Slot(x));
      if s.ring.Slot(x) == s.ring.Slot(k) {
        OnlyOneInLap(x, k, n);
      }
    }
  }

  lemma SameLaps<T>(s: State<T>, s': State<T>)
    requires s.WellFormed() && s'.WellFormed() && LapInv(s)
    requires s'.ring.stat == s.ring.stat && s'.pushed == s.pushed && s'.popped == s.popped
    ensures LapInv(s')
  {
    forall x
      ensures s'.ring.Slot(x) == s.ring.Slot(x)
    {
    }
  }

  // Consequences used below.

  /** A cell that grants ticket k for writing has nothing of k written; for reading, k is written and unread. */
  lemma GrantMeans<T>(s: State<T>, side: Side, k: nat)
    requires s.WellFormed() && LapInv(s) && s.ring.Grants(side, k)
    ensures side.Write? ==> k !in s.pushed && k !in s.popped
    ensures side.Read? ==> k in s.pushed && k !in s.popped
  {
    var j := s.ring.Slot(k);
    assert Tag(s.ring.stat[j]) == k;
    assert k in s.pushed <==> 0 <= k < NextWrite(s.ring, j);
    assert k in s.popped <==> 0 <= k < NextRead(s.ring, j);
  }

  // Cells.

  /** Only cell j and thread t have changed. */
  ghost predicate OnlyCell<T>(s: State<T>, s': State<T>, t: nat, j: nat) {
    && s.WellFormed() && s'.WellFormed() && j < s.N() == s'.N()
    && s'.pcs == s.pcs[t := s'.PcOf(t)]
    && (forall i: nat | i < s.N() && i != j ::
          s'.ring.stat[i] == s.ring.stat[i] && s'.ring.data[i] == s.ring.data[i] && s'.guest[i] == s.guest[i])
    && (forall k | k in s.pushed :: k in s'.pushed && s'.pushed[k] == s.pushed[k])
    && s.delivered.Keys <= s'.delivered.Keys
  }

  /** A thread inside cell j that is alone there before and after the step. */
  lemma OwnCell<T>(s: State<T>, s': State<T>, t: nat, j: nat)
    requires OnlyCell(s, s', t, j) && CellInv(s) && t != 0 && 0 !in s.pcs
    requires s.guest[j] == t || s.guest[j] == 0
    requires s.guest[j] == 0 ==> !(s.PcOf(t).Holding? && s.PcOf(t).stage.Inside())
    requires s.PcOf(t).Holding? && s.PcOf(t).stage.Inside() ==> s.ring.Slot(s.PcOf(t).idx) == j
    requires GuestOk(s', t) && CellOk(s', j)
    ensures CellInv(s')
  {
    forall u | u in s'.pcs
      ensures GuestOk(s', u)
    {
      if u != t {
        assert GuestOk(s, u);
        var pc := s.PcOf(u);
        if pc.Holding? && pc.stage.Inside() {
          assert s.guest[s.ring.Slot(pc.idx)] == u;
          assert s'.ring.Slot(pc.idx) == s.ring.Slot(pc.idx) != j;
        }
      }
    }
    forall i | 0 <= i < s'.N()
      ensures CellOk(s', i)
    {
      if i != j {
        assert CellOk(s, i);
        assert s.guest[i] != t;
      }
    }
  }

  /** A step of a thread that is in no cell, before or after. */
  lemma NoCell<T>(s: State<T>, s': State<T>, t: nat)
    requires OnlyCell(s, s', t, 0) && CellInv(s) && t != 0
    requires s'.ring.stat[0] == s.ring.stat[0] && s'.ring.data[0] == s.ring.data[0] && s'.guest[0] == s.guest[0]
    requires !(s.PcOf(t).Holding? && s.PcOf(t).stage.Inside())
    requires !(s'.PcOf(t).Holding? && s'.PcOf(t).stage.Inside())
    ensures CellInv(s')
  {
    forall u | u in s'.pcs
      ensures GuestOk(s', u)
    {
      if u != t {
        assert GuestOk(s, u);
        var pc := s.PcOf(u);
        if pc.Holding? {
          assert s'.ring.Slot(pc.idx) == s.ring.Slot(pc.idx);
        }
      }
    }
    forall i | 0 <= i < s'.N()
      ensures CellOk(s', i)
    {
      assert CellOk(s, i);
    }
  }

  /** Two threads whose tickets the same cell grants are the same thread. */
  lemma GrantIsExclusive<T>(s: State<T>, t: nat, u: nat)
    requires s.WellFormed() && TableInv(s) && TicketInv(s, Write) && TicketInv(s, Read)
    requires s.PcOf(t).Holding? && s.ring.Grants(s.PcOf(t).want.Side(), s.PcOf(t).idx)
    requires s.PcOf(u).Holding? && s.ring.Grants(s.PcOf(u).want.Side(), s.PcOf(u).idx)
    requires s.ring.Slot(s.PcOf(t).idx) == s.ring.Slot(s.PcOf(u).idx)
    ensures t == u
  {
    var side := s.PcOf(t).want.Side();
    assert ThreadTicketOk(s, side, t) && ThreadTicketOk(s, s.PcOf(u).want.Side(), u);
    assert ProbeOk(s, t) && ProbeOk(s, u);
  }

  lemma CheckKeepsCells<T>(s: State<T>, t: nat)
    requires Inv(s) && t != 0 && s.PcOf(t).Holding? && s.PcOf(t).stage.Checking?
    ensures CellInv(StepCheck(s, t))
  {
    var s' := StepCheck(s, t);
    var Holding(want, rec, k, _) := s.PcOf(t);
    assert ThreadTicketOk(s, want.Side(), t);
    if s.ring.Grants(want.Side(), k) {
      var j := s.ring.Slot(k);
      GrantMeans(s, want.Side(), k);
      assert CellOk(s, j);
      if s.guest[j] != 0 {
        assert GuestOk(s, s.guest[j]);
        GrantIsExclusive(s, t, s.guest[j]);
        assert false;
      }
      OwnCell(s, s', t, j);
    } else if s' != s {
      NoCell(s, s', t);
    }
  }

  lemma OpenKeepsCells<T>(s: State<T>, t: nat)
    requires Inv(s) && t != 0 && s.PcOf(t).Holding? && s.PcOf(t).stage.Granted?
    ensures CellInv(StepOpen(s, t))
  {
    assert GuestOk(s, t);
    OwnCell(s, StepOpen(s, t), t, s.ring.Slot(s.PcOf(t).idx));
  }

  lemma CloseKeepsCells<T>(s: State<T>, t: nat)
    requires Inv(s) && t != 0 && s.PcOf(t).Holding? && s.PcOf(t).stage.Accessing?
    ensures CellInv(StepClose(s, t))
  {
    assert GuestOk(s, t);
    OwnCell(s, StepClose(s, t), t, s.ring.Slot(s.PcOf(t).idx));
  }

  /** After a push the cell holds the value and nobody is inside; after a pop it is empty. */
  lemma AfterOwnCell<T>(s: State<T>, t: nat)
    requires s.WellFormed() && t != 0 && s.PcOf(t).Holding? && s.PcOf(t).stage.Accessed? && s.PcOf(t).idx >= 0
    requires GuestOk(s, t) && (s.PcOf(t).want.Push? ==> s.PcOf(t).idx !in s.pushed)
    ensures var s', j := StepAfter(s, t), s.ring.Slot(s.PcOf(t).idx);
      OnlyCell(s, s', t, j) && GuestOk(s', t) && CellOk(s', j)
  {
  }

  lemma AfterKeepsCells<T>(s: State<T>, t: nat)
    requires Inv(s) && t != 0 && s.PcOf(t).Holding? && s.PcOf(t).stage.Accessed?
    ensures CellInv(StepAfter(s, t))
  {
    hide StepAfter;
    var Holding(want, rec, k, _) := s.PcOf(t);
    assert GuestOk(s, t) && ThreadTicketOk(s, want.Side(), t);
    GrantMeans(s, want.Side(), k);
    AfterOwnCell(s, t);
    OwnCell(s, StepAfter(s, t), t, s.ring.Slot(k));
  }

  lemma ReleaseKeepsCells<T>(s: State<T>, t: nat)
    requires Inv(s) && t != 0 && s.PcOf(t).Holding? && s.PcOf(t).stage.Destroyed?
    ensures CellInv(StepRelease(s, t))
  {
    var k := s.PcOf(t).idx;
    assert GuestOk(s, t) && ThreadTicketOk(s, Read, t);
    OwnCell(s, StepRelease(s, t), t, s.ring.Slot(k));
  }

  lemma QuietKeepsCells<T>(s: State<T>, s': State<T>, t: nat)
    requires s.WellFormed() && s'.WellFormed() && CellInv(s) && t != 0
    requires !s.PcOf(t).Holding? && (s'.PcOf(t).Holding? ==> s'.PcOf(t).stage.Checking?)
    requires s'.pcs == s.pcs[t := s'.PcOf(t)] && s'.guest == s.guest
    requires s'.ring.stat == s.ring.stat && s'.ring.data == s.ring.data
    requires s'.pushed == s.pushed && s'.delivered == s.delivered
    ensures CellInv(s')
  {
    NoCell(s, s', t);
  }

  // Laps, deliveries and lifetimes, step by step.

  /** What a step that touches neither cells nor logs keeps. */
  lemma SameCells<T>(s: State<T>, s': State<T>)
    requires s.WellFormed() && s'.WellFormed() && LapInv(s) && DeliveryInv(s) && LifeInv(s)
    requires s'.ring.stat == s.ring.stat && s'.ring.data == s.ring.data
    requires s'.pushed == s.pushed && s'.popped == s.popped && s'.delivered == s.delivered
    requires s'.built == s.built && s'.freed == s.freed
    ensures LapInv(s') && DeliveryInv(s') && LifeInv(s')
  {
    SameLaps(s, s');
    forall k
      ensures LifeOk(s', k) && s'.ring.Slot(k) == s.ring.Slot(k)
    {
      assert LifeOk(s, k);
    }
  }

  /** The data of one cell changes; its objects and the construction log must agree at the ids involved. */
  lemma DataStepKeepsLife<T>(s: State<T>, s': State<T>, k: int)
    requires s.WellFormed() && s'.WellFormed() && LifeInv(s) && s'.N() == s.N()
    requires s'.ring.data == s.ring.data[s.ring.Slot(k) := s'.ring.data[s.ring.Slot(k)]]
    requires forall x :: x in s'.pushed <==> x in s.pushed
    requires forall x | x != k :: s'.built[x] == s.built[x] && s'.freed[x] == s.freed[x]
    requires forall x | x != k :: !s.ring.data[s.ring.Slot(k)].IsObject(x) && !s'.ring.data[s.ring.Slot(k)].IsObject(x)
    requires LifeOk(s', k)
    ensures LifeInv(s')
  {
    forall x
      ensures LifeOk(s', x)
    {
      assert LifeOk(s, x);
      assert s'.ring.Slot(x) == s.ring.Slot(x);
    }
  }

  lemma OpenKeepsLogs<T>(s: State<T>, t: nat)
    requires Inv(s) && t != 0 && s.PcOf(t).Holding? && s.PcOf(t).stage.Granted?
    ensures var s' := StepOpen(s, t); LapInv(s') && DeliveryInv(s') && LifeInv(s')
  {
    var s' := StepOpen(s, t);
    var Holding(want, _, k, _) := s.PcOf(t);
    assert GuestOk(s, t) && ThreadTicketOk(s, want.Side(), t) && LifeOk(s, k);
    if want.Pop? {
      SameCells(s, s');
    } else {
      SameLaps(s, s');
      DataStepKeepsLife(s, s', k);
    }
  }

  lemma CloseKeepsLogs<T>(s: State<T>, t: nat)
    requires Inv(s) && t != 0 && s.PcOf(t).Holding? && s.PcOf(t).stage.Accessing?
    ensures var s' := StepClose(s, t); LapInv(s') && DeliveryInv(s') && LifeInv(s')
  {
    var s' := StepClose(s, t);
    var Holding(want, _, k, _) := s.PcOf(t);
    assert GuestOk(s, t) && ThreadTicketOk(s, want.Side(), t) && LifeOk(s, k);
    GrantMeans(s, want.Side(), k);
    SameLaps(s, s');
    DataStepKeepsLife(s, s', k);
  }

  lemma AfterKeepsLogs<T>(s: State<T>, t: nat)
    requires Inv(s) && t != 0 && s.PcOf(t).Holding? && s.PcOf(t).stage.Accessed?
    ensures var s' := StepAfter(s, t); LapInv(s') && DeliveryInv(s') && LifeInv(s')
  {
    var s' := StepAfter(s, t);
    var Holding(want, _, k, _) := s.PcOf(t);
    assert GuestOk(s, t) && ThreadTicketOk(s, want.Side(), t) && LifeOk(s, k);
    GrantMeans(s, want.Side(), k);
    if want.Pop? {
      SameLaps(s, s');
      DataStepKeepsLife(s, s', k);
    } else {
      WriteCommitKeepsLaps(s, s', k, want.value);
      forall x
        ensures LifeOk(s', x)
      {
        assert LifeOk(s, x);
        assert s'.ring.Slot(x) == s.ring.Slot(x);
      }
    }
  }

  lemma ReleaseKeepsLogs<T>(s: State<T>, t: nat)
    requires Inv(s) && t != 0 && s.PcOf(t).Holding? && s.PcOf(t).stage.Destroyed?
    ensures var s' := StepRelease(s, t); LapInv(s') && DeliveryInv(s') && LifeInv(s')
  {
    var s' := StepRelease(s, t);
    var k := s.PcOf(t).idx;
    assert GuestOk(s, t) && ThreadTicketOk(s, Read, t);
    GrantMeans(s, Read, k);
    ReadCommitKeepsLaps(s, s', k);
    forall x
      ensures LifeOk(s', x)
    {
      assert LifeOk(s, x);
      assert s'.ring.Slot(x) == s.ring.Slot(x);
    }
  }
}
